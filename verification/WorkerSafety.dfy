/** What the worker protocol guarantees over every run: deduplication, a write-once result cache,
    the accounting of mutations, and where the in-flight map falls short after a restart. */
module WorkerSafety {
  import opened Common
  import Circuit
  import opened Workers
  import opened WorkerInvariant

  function Reach(cfg: Config, steps: seq<Step>): State {
    Run(cfg, INITIAL, steps)
  }

  lemma {:induction false} RunSplits(cfg: Config, s: State, steps: seq<Step>, more: seq<Step>)
    ensures Run(cfg, s, steps + more) == Run(cfg, Run(cfg, s, steps), more)
  {
    hide Apply;
    if more == [] {
      assert steps + more == steps;
    } else {
      var whole := steps + more;
      assert whole[..|whole| - 1] == steps + more[..|more| - 1];
      RunSplits(cfg, s, steps, more[..|more| - 1]);
    }
  }

  // ----- What each step can change -----

  /** How an admission can change over a run. */
  predicate Evolves(a: Admission, a': Admission) {
    && a'.job == a.job
    && (a.drained ==> a'.drained)
    && (a.leader.Answered? ==> a'.leader == a.leader)
    && (a.future.Broken? ==> a'.future == a.future)
    && (a'.future.Broken? && !a.future.Broken? ==>
          a'.future.error == if Mutates(a.job) then STOPPED_MUTATION else STOPPED_READ)
  }

  /** Admissions and the breaker's log are append-only. */
  predicate Grows(s: State, s': State) {
    && |s.admissions| <= |s'.admissions|
    && (forall t | 0 <= t < |s.admissions| :: Evolves(s.admissions[t], s'.admissions[t]))
    && s.breakerLog <= s'.breakerLog
  }

  /** No admitted job is newly found to have an output that does not serialise. */
  predicate SameOutputs(s: State, s': State) {
    && |s.admissions| <= |s'.admissions|
    && (forall t | 0 <= t < |s.admissions| :: s'.admissions[t].unserialisable == s.admissions[t].unserialisable)
    && (forall t | |s.admissions| <= t < |s'.admissions| :: !s'.admissions[t].unserialisable)
  }

  /** Nothing is admitted, cached or reported to the breaker. */
  predicate Calm(s: State, s': State) {
    && |s'.admissions| == |s.admissions|
    && (forall t | 0 <= t < |s.admissions| :: Evolves(s.admissions[t], s'.admissions[t]))
    && s'.results == s.results && s'.breakerLog == s.breakerLog
  }

  predicate Quiet(s: State, s': State) {
    Calm(s, s') && SameOutputs(s, s')
  }

  lemma ReportTouches(cfg: Config, s: State, e: Circuit.Event)
    ensures var s' := Report(cfg, s, e);
            && s'.results == s.results && s'.admissions == s.admissions
            && s'.breakerLog == s.breakerLog + [e]
            && s'.tasks == s.tasks && s'.untracked == s.untracked && s'.stopping == s.stopping && s'.late == s.late
  {
  }

  lemma SubmitEffects(cfg: Config, s: State, job: Job, now: int)
    ensures var (s', reply) := Submit(cfg, s, job, now);
            && s'.results == s.results
            && s.breakerLog <= s'.breakerLog
            && var admitted := [Admission(job, Pending, Waiting, false, false, false)];
               s'.admissions == s.admissions + if reply.Admitted? then admitted else []
  {
    var asked := Report(cfg, s, Circuit.Asked(now));
    ReportTouches(cfg, s, Circuit.Asked(now));
    ReportTouches(cfg, asked, Circuit.Failed(now));
    hide Report, Circuit.IsOpen, Authentic, QueueFull;
  }

  /** The admissions, the cache and the breaker's log are untouched. */
  lemma UntouchedIsQuiet(s: State, s': State)
    requires s'.admissions == s.admissions && s'.results == s.results && s'.breakerLog == s.breakerLog
    ensures Quiet(s, s')
  {
  }

  lemma PublishEffects(s: State, i: nat)
    requires i < |s.tasks| && s.tasks[i].Executed? && s.tasks[i].ticket < |s.admissions|
    ensures Quiet(s, Publish(s, i))
  {
  }

  lemma PhaseEffects(cfg: Config, s: State, step: Step)
    requires Enabled(s, step) && (step.DoTake? || step.DoCancel? || step.DoPublish? || step.DoRelease? || step.DoDie?)
    ensures Quiet(s, Apply(cfg, s, step))
  {
    hide Quiet, Publish;
    if step.DoPublish? {
      PublishEffects(s, step.worker);
    } else {
      UntouchedIsQuiet(s, Apply(cfg, s, step));
    }
  }

  /** Only admission `t` changes. */
  lemma OneEvolves(s: State, s': State, t: nat)
    requires Known(s, t) && s'.results == s.results && s'.breakerLog == s.breakerLog
    requires |s'.admissions| == |s.admissions| && s'.admissions == s.admissions[t := s'.admissions[t]]
    requires Evolves(s.admissions[t], s'.admissions[t])
    requires s'.admissions[t].unserialisable == s.admissions[t].unserialisable
    ensures Quiet(s, s')
  {
  }

  lemma FailEffects(s: State, i: nat, cause: Exn, detail: string)
    requires ExecutingAt(s, i)
    ensures Quiet(s, ExecutionFails(s, i, cause, detail)) && Calm(s, SerialisationFails(s, i, cause))
  {
    OneEvolves(s, ExecutionFails(s, i, cause, detail), s.tasks[i].ticket);
    hide Quiet, ExecutionFails;
  }

  lemma PoolEffects(cfg: Config, s: State, step: Step)
    requires step.DoReconcile? || step.DoStart? || step.DoStopEnd? || step.DoLateStopEnd?
    ensures Quiet(s, Apply(cfg, s, step))
  {
    hide Quiet;
    UntouchedIsQuiet(s, Apply(cfg, s, step));
  }

  lemma TimerEffects(s: State, t: nat)
    requires Known(s, t) && s.admissions[t].leader.Waiting?
    ensures Quiet(s, TimerFires(s, t))
  {
    hide Quiet;
    OneEvolves(s, TimerFires(s, t), t);
  }

  lemma StopEffects(s: State)
    ensures Quiet(s, StopBegins(s))
  {
    forall t | 0 <= t < |s.admissions| ensures Evolves(s.admissions[t], StopBegins(s).admissions[t]) { StopMove(s, t); }
  }

  lemma TimeOutEffects(cfg: Config, s: State, t: nat, now: int)
    requires Known(s, t) && s.admissions[t].leader.Expired?
    ensures var s' := LeaderTimesOut(cfg, s, t, now);
            Quiet(s, s'.(breakerLog := s.breakerLog)) && s'.breakerLog == s.breakerLog + [Circuit.Failed(now)]
  {
    TimesOutIsMark(cfg, s, t, now);
  }

  lemma ResumeEffects(cfg: Config, s: State, t: nat, now: int)
    requires Known(s, t) && s.admissions[t].leader.Waiting?
    requires s.admissions[t].future.Resolved? || s.admissions[t].future.Broken?
    ensures var s' := LeaderResumes(cfg, s, t, now);
            && Quiet(s, s'.(breakerLog := s.breakerLog))
            && (s'.breakerLog == s.breakerLog || s'.breakerLog == s.breakerLog + [Circuit.Succeeded]
                || s'.breakerLog == s.breakerLog + [Circuit.Failed(now)])
  {
  }

  lemma SucceedEffects(s: State, i: nat, output: Args)
    requires ExecutingAt(s, i)
    ensures var s' := ExecutionSucceeds(s, i, output);
            && Quiet(s, s'.(results := s.results))
            && s'.results == s.results[JobOf(s, i).key := Succeeded(JobOf(s, i).jobId, output)]
  {
  }

  /** Only a completed execution touches the cache, and it adds its own key; only a submission
      admits; a step other than a submission reports at most once to the breaker. */
  lemma StepEffects(cfg: Config, s: State, step: Step)
    ensures var s' := Apply(cfg, s, step);
            && Grows(s, s')
            && (!step.DoFailToSerialise? ==> SameOutputs(s, s'))
            && (step.DoSubmit? ==> s' == Submit(cfg, s, step.job, step.now).0)
            && (!step.DoSubmit? ==>
                  && |s'.admissions| == |s.admissions|
                  && (|| s'.breakerLog == s.breakerLog
                      || s'.breakerLog == s.breakerLog + [Circuit.Succeeded]
                      || ((step.DoTimeOut? || step.DoResume?)
                          && s'.breakerLog == s.breakerLog + [Circuit.Failed(step.now)])))
            && s'.results == if Enabled(s, step) && step.DoSucceed?
                             then var job := JobOf(s, step.worker);
                                  s.results[job.key := Succeeded(job.jobId, step.output)]
                             else s.results
  {
    if Enabled(s, step) {
      match step
      case DoSubmit(job, now) => SubmitEffects(cfg, s, job, now);
      case DoTake(_) => PhaseEffects(cfg, s, step);
      case DoSucceed(i, output) => SucceedEffects(s, i, output);
      case DoFail(i, cause, detail) => FailEffects(s, i, cause, detail);
      case DoFailToSerialise(i, cause) => FailEffects(s, i, cause, "");
      case DoCancel(_) => PhaseEffects(cfg, s, step);
      case DoPublish(_) => PhaseEffects(cfg, s, step);
      case DoRelease(_) => PhaseEffects(cfg, s, step);
      case DoDie(_) => PhaseEffects(cfg, s, step);
      case DoFireTimer(t) => TimerEffects(s, t);
      case DoTimeOut(t, now) => TimeOutEffects(cfg, s, t, now);
      case DoResume(t, now) => ResumeEffects(cfg, s, t, now);
      case DoReconcile(_, _) => PoolEffects(cfg, s, step);
      case DoStart => PoolEffects(cfg, s, step);
      case DoStopBegin => StopEffects(s);
      case DoStopEnd => PoolEffects(cfg, s, step);
      case DoLateStopEnd => PoolEffects(cfg, s, step);
    }
  }

  lemma {:induction false} RunGrows(cfg: Config, s: State, more: seq<Step>)
    ensures Grows(s, Run(cfg, s, more))
  {
    hide Apply;
    if more != [] {
      RunGrows(cfg, s, more[..|more| - 1]);
      StepEffects(cfg, Run(cfg, s, more[..|more| - 1]), more[|more| - 1]);
    }
  }

  // ----- Deduplication -----

  /** No two busy workers, and no busy worker and queued job, share an idempotency key; nor do
      two queued jobs.  No job whose key already has a result is queued or executing. */
  lemma NoSharedKey(cfg: Config, steps: seq<Step>)
    ensures var s := Reach(cfg, steps);
            && QueueOwns(s) && WorkersOwn(s)
            && (forall i, j | 0 <= i < j < |s.tasks| && Busy(s.tasks[i]) && Busy(s.tasks[j]) ::
                  KeyOf(s, s.tasks[i].ticket) != KeyOf(s, s.tasks[j].ticket))
            && (forall i, j | 0 <= i < j < |s.queue| :: KeyOf(s, s.queue[i]) != KeyOf(s, s.queue[j]))
            && (forall i, j | 0 <= i < |s.tasks| && Busy(s.tasks[i]) && 0 <= j < |s.queue| ::
                  KeyOf(s, s.tasks[i].ticket) != KeyOf(s, s.queue[j]))
            && (forall i | 0 <= i < |s.tasks| && s.tasks[i].Executing? :: KeyOf(s, s.tasks[i].ticket) !in s.results)
  {
    ReachableOk(cfg, steps);
    var s := Reach(cfg, steps);
    forall i | 0 <= i < |s.tasks| && s.tasks[i].Executing? ensures KeyOf(s, s.tasks[i].ticket) !in s.results {
      assert PhaseOk(s, s.tasks[i]);
    }
  }

  /** One step never changes or drops a cached result. */
  lemma StepKeepsCache(cfg: Config, s: State, step: Step)
    requires PhasesOk(s)
    ensures forall k | k in s.results ::
              k in Apply(cfg, s, step).results && Apply(cfg, s, step).results[k] == s.results[k]
  {
    StepEffects(cfg, s, step);
    if Enabled(s, step) && step.DoSucceed? {
      assert PhaseOk(s, s.tasks[step.worker]);
    }
  }

  /** The result cache is write-once over every run. */
  lemma {:induction false} CacheIsWriteOnce(cfg: Config, s: State, more: seq<Step>)
    requires Inv(cfg, s)
    ensures forall k | k in s.results :: k in Run(cfg, s, more).results && Run(cfg, s, more).results[k] == s.results[k]
  {
    hide Apply;
    if more != [] {
      CacheIsWriteOnce(cfg, s, more[..|more| - 1]);
      RunKeeps(cfg, s, more[..|more| - 1]);
      StepKeepsCache(cfg, Run(cfg, s, more[..|more| - 1]), more[|more| - 1]);
    }
  }

  /** Step `n` of the run completes an execution for this key. */
  predicate SucceedsAt(cfg: Config, steps: seq<Step>, n: nat, key: string) {
    && n < |steps|
    && steps[n].DoSucceed?
    && var s := Reach(cfg, steps[..n]);
       ExecutingAt(s, steps[n].worker) && JobOf(s, steps[n].worker).key == key
  }

  /** In any run, at most one execution per key completes. */
  lemma AtMostOneSuccess(cfg: Config, steps: seq<Step>, n: nat, m: nat, key: string)
    requires SucceedsAt(cfg, steps, n, key) && SucceedsAt(cfg, steps, m, key)
    ensures n == m
  {
    if n < m {
      OneSuccess(cfg, steps, n, m, key);
    } else if m < n {
      OneSuccess(cfg, steps, m, n, key);
    }
  }

  lemma OneSuccess(cfg: Config, steps: seq<Step>, n: nat, m: nat, key: string)
    requires n < m && SucceedsAt(cfg, steps, n, key)
    ensures !SucceedsAt(cfg, steps, m, key)
  {
    hide Run, Apply;
    if m < |steps| {
      CachedAfterSuccess(cfg, steps, n, key);
      CachedStays(cfg, steps, n + 1, m, key);
      CachedIsNotExecuting(cfg, steps[..m], key);
    }
  }

  lemma CachedAfterSuccess(cfg: Config, steps: seq<Step>, n: nat, key: string)
    requires SucceedsAt(cfg, steps, n, key)
    ensures key in Reach(cfg, steps[..n + 1]).results
  {
    assert steps[..n + 1][..n] == steps[..n];
    StepEffects(cfg, Reach(cfg, steps[..n]), steps[n]);
  }

  lemma KeyStays(cfg: Config, s: State, step: Step, key: string)
    requires key in s.results
    ensures key in Apply(cfg, s, step).results
  {
    StepEffects(cfg, s, step);
  }

  lemma {:induction false} KeyStaysOverRun(cfg: Config, s: State, more: seq<Step>, key: string)
    requires key in s.results
    ensures key in Run(cfg, s, more).results
  {
    hide Apply;
    if more != [] {
      KeyStaysOverRun(cfg, s, more[..|more| - 1], key);
      KeyStays(cfg, Run(cfg, s, more[..|more| - 1]), more[|more| - 1], key);
    }
  }

  lemma CachedStays(cfg: Config, steps: seq<Step>, n: nat, m: nat, key: string)
    requires n <= m <= |steps| && key in Reach(cfg, steps[..n]).results
    ensures key in Reach(cfg, steps[..m]).results
  {
    hide Run, Apply;
    var first, rest := steps[..n], steps[n..m];
    RunSplits(cfg, INITIAL, first, rest);
    assert first + rest == steps[..m];
    KeyStaysOverRun(cfg, Reach(cfg, first), rest, key);
  }

  lemma CachedIsNotExecuting(cfg: Config, steps: seq<Step>, key: string)
    requires key in Reach(cfg, steps).results
    ensures forall i: nat | ExecutingAt(Reach(cfg, steps), i) :: JobOf(Reach(cfg, steps), i).key != key
  {
    hide Run, Apply;
    NoSharedKey(cfg, steps);
  }

  /** Every cached result was produced by an execution, in this run, of an admitted job with
      that key. */
  lemma {:induction false} CacheComesFromExecution(cfg: Config, steps: seq<Step>, key: string) returns (n: nat)
    requires key in Reach(cfg, steps).results
    ensures SucceedsAt(cfg, steps, n, key)
    ensures Reach(cfg, steps).results[key]
            == Succeeded(JobOf(Reach(cfg, steps[..n]), steps[n].worker).jobId, steps[n].output)
  {
    var before, last := steps[..|steps| - 1], steps[|steps| - 1];
    var s := Reach(cfg, before);
    StepEffects(cfg, s, last);
    if Enabled(s, last) && last.DoSucceed? && JobOf(s, last.worker).key == key {
      n := |before|;
    } else {
      n := CacheComesFromExecution(cfg, before, key);
      assert before[..n] == steps[..n];
    }
  }

  /** Once an execution for a key has completed, no submission with that key runs anything:
      whatever its arguments, it is refused or handed the first job's result. */
  lemma CompletedKeyAnswersForever(cfg: Config, steps: seq<Step>, n: nat, job: Job, now: int)
    requires SucceedsAt(cfg, steps, n, job.key)
    ensures var first := JobOf(Reach(cfg, steps[..n]), steps[n].worker);
            var reply := Submit(cfg, Reach(cfg, steps), job, now).1;
            reply.Rejected? || reply == FromCache(Succeeded(first.jobId, steps[n].output))
  {
    hide Run, Apply;
    CachedAfterSuccess(cfg, steps, n, job.key);
    CachedStays(cfg, steps, n + 1, |steps|, job.key);
    assert steps[..|steps|] == steps;
    var m := CacheComesFromExecution(cfg, steps, job.key);
    AtMostOneSuccess(cfg, steps, n, m, job.key);
  }

  /** A key has a cached result exactly when an execution for it has completed. */
  lemma CachedExactlyWhenCompleted(cfg: Config, steps: seq<Step>, key: string)
    ensures key in Reach(cfg, steps).results <==> exists n: nat | n < |steps| :: SucceedsAt(cfg, steps, n, key)
  {
    hide Run, Apply;
    if key in Reach(cfg, steps).results {
      var n := CacheComesFromExecution(cfg, steps, key);
    }
    forall n: nat | n < |steps| && SucceedsAt(cfg, steps, n, key) ensures key in Reach(cfg, steps[..|steps|]).results {
      CachedAfterSuccess(cfg, steps, n, key);
      CachedStays(cfg, steps, n + 1, |steps|, key);
    }
    assert steps[..|steps|] == steps;
  }

  /** Whoever is told a success — the leader, a submitter that joined the same future, or one
      answered from the cache — is told the one cached result of the key. */
  lemma SuccessIsCached(cfg: Config, steps: seq<Step>, t: nat)
    requires t < |Reach(cfg, steps).admissions|
    ensures var s := Reach(cfg, steps); var a := s.admissions[t];
            && (a.leader.Answered? && a.leader.answer.Ok? ==> a.future == Resolved(a.leader.answer.value))
            && (a.future.Resolved? && a.future.result.Succeeded? ==>
                  a.job.key in s.results && s.results[a.job.key] == a.future.result)
  {
    hide Run, Apply;
    ReachableOk(cfg, steps);
    assert SettledOk(Reach(cfg, steps), t);
  }

  // ----- The in-flight map -----

  function HeldKeys(s: State): set<string>
    requires QueueOwns(s) && WorkersOwn(s)
  {
    (set i | 0 <= i < |s.queue| :: KeyOf(s, s.queue[i]))
    + (set i | 0 <= i < |s.tasks| && Busy(s.tasks[i]) :: KeyOf(s, s.tasks[i].ticket))
  }

  function DrainedKeys(s: State): set<string> {
    set t | 0 <= t < |s.admissions| && s.admissions[t].drained :: s.admissions[t].job.key
  }

  /** The in-flight map holds the queued and executing keys, plus the keys of the jobs that
      `stop` drained from the queue, and these never overlap; so it is exactly the former if
      and only if no queued job was ever drained.  The queue and the pool stay in bounds. */
  lemma InflightIsHeldOrDrained(cfg: Config, steps: seq<Step>)
    ensures var s := Reach(cfg, steps);
            && QueueOwns(s) && WorkersOwn(s)
            && s.inflight.Keys == HeldKeys(s) + DrainedKeys(s)
            && HeldKeys(s) !! DrainedKeys(s)
            && (s.inflight.Keys == HeldKeys(s) <==> forall t | 0 <= t < |s.admissions| :: !s.admissions[t].drained)
            && (0 < cfg.queueSize ==> |s.queue| <= cfg.queueSize)
            && s.untracked <= |s.tasks| <= s.untracked + PoolSize(cfg)
  {
    ReachableOk(cfg, steps);
    var s := Reach(cfg, steps);
    HeldOrDrained(s);
    HeldNotDrained(s);
    assert forall t | 0 <= t < |s.admissions| && s.admissions[t].drained :: s.admissions[t].job.key in DrainedKeys(s);
  }

  lemma HeldOrDrained(s: State)
    requires QueueOwns(s) && WorkersOwn(s) && InflightExplained(s) && DrainedStay(s)
    ensures s.inflight.Keys == HeldKeys(s) + DrainedKeys(s)
  {
    forall k | k in s.inflight ensures k in HeldKeys(s) + DrainedKeys(s) {
      var t := s.inflight[k];
      if t in s.queue {
        var i :| 0 <= i < |s.queue| && s.queue[i] == t;
        assert KeyOf(s, s.queue[i]) == k;
      } else if HeldByWorker(s, t) {
        var i :| 0 <= i < |s.tasks| && Holds(s.tasks[i], t);
        assert KeyOf(s, s.tasks[i].ticket) == k;
      }
    }
  }

  lemma HeldNotDrained(s: State)
    requires QueueOwns(s) && WorkersOwn(s) && DrainedStay(s)
    ensures HeldKeys(s) !! DrainedKeys(s)
  {
    forall k | k in DrainedKeys(s) ensures k !in HeldKeys(s) {
      var t :| 0 <= t < |s.admissions| && s.admissions[t].drained && s.admissions[t].job.key == k;
      assert s.inflight[KeyOf(s, t)] == t;
      forall i | 0 <= i < |s.tasks| && Busy(s.tasks[i]) ensures KeyOf(s, s.tasks[i].ticket) != k {
        assert !Holds(s.tasks[i], t);
      }
    }
  }

  /** Once `stop` has drained a queued job, its key is unusable for the rest of the service's
      life: in every later state, restarts included, a submission with that key is refused or
      joins the drained job's future, which is done without a result. */
  lemma DrainedKeyIsNeverAdmitted(cfg: Config, steps: seq<Step>, more: seq<Step>, t: nat, job: Job, now: int)
    requires t < |Reach(cfg, steps).admissions| && Reach(cfg, steps).admissions[t].drained
    requires job.key == Reach(cfg, steps).admissions[t].job.key
    ensures var s := Reach(cfg, steps + more);
            && t < |s.admissions|
            && (s.admissions[t].future.Broken? || s.admissions[t].future.Cancelled?)
            && (Submit(cfg, s, job, now).1.Rejected? || Submit(cfg, s, job, now).1 == Joined(t))
  {
    RunSplits(cfg, INITIAL, steps, more);
    RunGrows(cfg, Reach(cfg, steps), more);
    ReachableOk(cfg, steps + more);
    var s := Reach(cfg, steps + more);
    assert s.admissions[t].drained && KeyOf(s, t) == job.key;
  }

  /** How a key gets there: start, admit any job, stop before a worker takes it, start again.
      Nothing is queued or executing, yet the key is in flight. */
  lemma RestartLeavesStaleKey(cfg: Config, job: Job, now: int)
    requires Authentic(cfg, job)
    ensures var s := Reach(cfg,
                           [DoStart, DoSubmit(job, now), DoStopBegin] + Deaths(PoolSize(cfg)) + [DoStopEnd, DoStart]);
            && |s.tasks| == PoolSize(cfg) && (forall i | 0 <= i < |s.tasks| :: s.tasks[i].Idle?)
            && s.queue == [] && s.inflight == map[job.key := 0]
            && |s.admissions| == 1 && s.admissions[0].future.Broken?
  {
    var prefix, deaths := [DoStart, DoSubmit(job, now), DoStopBegin], Deaths(PoolSize(cfg));
    StopDrainsAdmitted(cfg, job, now);
    RunSplits(cfg, INITIAL, prefix, deaths);
    RunSplits(cfg, INITIAL, prefix + deaths, [DoStopEnd, DoStart]);
    RestartsClean(cfg, Drained(cfg, job, now));
  }

  lemma RestartsClean(cfg: Config, s: State)
    requires s.untracked == 0 && s.stopping == 1 && |s.tasks| == PoolSize(cfg)
    requires forall i | 0 <= i < |s.tasks| :: s.tasks[i].Idle?
    ensures Run(cfg, Run(cfg, s, Deaths(PoolSize(cfg))), [DoStopEnd, DoStart]) == s.(stopping := 0)
  {
    AllDie(cfg, s, PoolSize(cfg));
    var s1 := Run(cfg, s, Deaths(PoolSize(cfg)));
    RunTwo(cfg, s1, DoStopEnd, DoStart);
    assert s.tasks == seq(PoolSize(cfg), _ => Idle);
  }

  lemma RunTwo(cfg: Config, s: State, first: Step, second: Step)
    ensures Run(cfg, s, [first, second]) == Apply(cfg, Apply(cfg, s, first), second)
  {
    hide Apply;
    assert [first, second][..1] == [first] && [first][..0] == [];
    assert Run(cfg, s, [first]) == Apply(cfg, s, first);
  }

  /** The state after start, an admission, and the locked section of `stop`. */
  function Drained(cfg: Config, job: Job, now: int): State {
    INITIAL.(tasks := seq(PoolSize(cfg), _ => Idle), stopping := 1,
             inflight := map[job.key := 0],
             reconciliation := if Mutates(job) then map[job.jobId := Review("needs_review", STOPPED_DETAIL)] else map[],
             breakerLog := [Circuit.Asked(now)],
             admissions := [Admission(job, if Mutates(job) then Broken(STOPPED_MUTATION) else Broken(STOPPED_READ),
                                      Waiting, Mutates(job), false, true)])
  }

  /** The state after start and one admission. */
  function FirstAdmitted(cfg: Config, job: Job, now: int): State {
    INITIAL.(tasks := seq(PoolSize(cfg), _ => Idle), inflight := map[job.key := 0], queue := [0],
             breakerLog := [Circuit.Asked(now)],
             admissions := [Admission(job, Pending, Waiting, false, false, false)])
  }

  lemma SubmitFirst(cfg: Config, job: Job, now: int)
    requires Authentic(cfg, job)
    ensures var s1 := INITIAL.(tasks := seq(PoolSize(cfg), _ => Idle));
            Submit(cfg, s1, job, now) == (FirstAdmitted(cfg, job, now), Admitted(0))
  {
    var s1 := INITIAL.(tasks := seq(PoolSize(cfg), _ => Idle));
    assert |s1.tasks| > 0;
    var s2 := Report(cfg, s1, Circuit.Asked(now));
    assert s2 == s1.(breakerLog := [Circuit.Asked(now)]);
    var a := Admission(job, Pending, Waiting, false, false, false);
    assert s2.admissions + [a] == [a] && s2.queue + [0] == [0];
  }

  lemma AdmittedFirst(cfg: Config, job: Job, now: int)
    requires Authentic(cfg, job)
    ensures Reach(cfg, [DoStart, DoSubmit(job, now)]) == FirstAdmitted(cfg, job, now)
  {
    SubmitFirst(cfg, job, now);
    RunTwo(cfg, INITIAL, DoStart, DoSubmit(job, now));
    hide Submit, FirstAdmitted, Run;
    assert Apply(cfg, INITIAL, DoStart) == INITIAL.(tasks := seq(PoolSize(cfg), _ => Idle));
  }

  lemma StopDrainsAdmitted(cfg: Config, job: Job, now: int)
    requires Authentic(cfg, job)
    ensures Reach(cfg, [DoStart, DoSubmit(job, now), DoStopBegin]) == Drained(cfg, job, now)
  {
    AdmittedFirst(cfg, job, now);
    var s2 := FirstAdmitted(cfg, job, now);
    DrainFirst(cfg, s2, job, now);
    var steps := [DoStart, DoSubmit(job, now), DoStopBegin];
    assert steps[..2] == [DoStart, DoSubmit(job, now)];
    hide FirstAdmitted, Drained, StopBegins, Submit;
    assert Apply(cfg, s2, DoStopBegin) == StopBegins(s2);
  }

  lemma DrainFirst(cfg: Config, s2: State, job: Job, now: int)
    requires s2 == FirstAdmitted(cfg, job, now)
    ensures StopBegins(s2) == Drained(cfg, job, now)
  {
    var s3 := Drained(cfg, job, now);
    assert Unfinished(s2, 0) by { assert s2.inflight[job.key] == 0; }
    assert StoppedIds(s2) == if Mutates(job) then {job.jobId} else {};
    assert StopBegins(s2).admissions == s3.admissions;
    assert StopBegins(s2).reconciliation == s3.reconciliation;
  }

  function Deaths(n: nat): seq<Step> {
    seq(n, i requires 0 <= i < n => DoDie(i))
  }

  lemma {:induction false} AllDie(cfg: Config, s: State, n: nat)
    requires s.stopping > 0 && n <= |s.tasks| && forall i | 0 <= i < |s.tasks| :: s.tasks[i].Idle?
    ensures Run(cfg, s, Deaths(n))
            == s.(tasks := seq(|s.tasks|, i requires 0 <= i < |s.tasks| => if i < n then Dead else Idle))
  {
    if n == 0 {
      assert s.tasks == seq(|s.tasks|, i requires 0 <= i < |s.tasks| => if i < n then Dead else Idle);
    } else {
      AllDie(cfg, s, n - 1);
      assert Deaths(n)[..n - 1] == Deaths(n - 1);
    }
  }

  // ----- The pool and overlapping stops -----

  /** The same workers are there and tracked, and the same `stop` calls in progress. */
  predicate SamePool(s: State, s': State) {
    |s'.tasks| == |s.tasks| && s'.untracked == s.untracked && s'.stopping == s.stopping && s'.late == s.late
  }

  lemma SubmitPool(cfg: Config, s: State, job: Job, now: int)
    ensures SamePool(s, Submit(cfg, s, job, now).0)
  {
    var asked := Report(cfg, s, Circuit.Asked(now));
    ReportTouches(cfg, s, Circuit.Asked(now));
    ReportTouches(cfg, asked, Circuit.Failed(now));
    hide Report, Circuit.IsOpen, Authentic, QueueFull;
  }

  lemma PhasePool(s: State, i: nat)
    requires i < |s.tasks| && Busy(s.tasks[i]) && s.tasks[i].ticket < |s.admissions|
    ensures forall output :: SamePool(s, ExecutionSucceeds(s, i, output))
    ensures forall cause :: SamePool(s, SerialisationFails(s, i, cause))
    ensures s.tasks[i].Executed? ==> SamePool(s, Publish(s, i))
    ensures s.tasks[i].Releasing? ==> SamePool(s, Release(s, i))
  {
    hide Mutates;
  }

  lemma FailPool(s: State, i: nat, cause: Exn, detail: string)
    requires i < |s.tasks| && Busy(s.tasks[i]) && s.tasks[i].ticket < |s.admissions|
    ensures SamePool(s, ExecutionFails(s, i, cause, detail))
  {
    hide Mutates;
  }

  lemma LeaderPool(cfg: Config, s: State, t: nat, now: int)
    requires t < |s.admissions|
    ensures SamePool(s, TimerFires(s, t)) && SamePool(s, LeaderTimesOut(cfg, s, t, now))
    ensures var f := s.admissions[t].future;
            f.Resolved? || f.Broken? ==> SamePool(s, LeaderResumes(cfg, s, t, now))
  {
    hide Circuit.React, Mutates, AnswerOf;
  }

  predicate ChangesPool(step: Step) {
    step.DoStart? || step.DoStopBegin? || step.DoStopEnd? || step.DoLateStopEnd?
  }

  /** Only `start` and `stop` change which workers there are and which are tracked. */
  lemma PoolFrame(cfg: Config, s: State, step: Step)
    requires !ChangesPool(step)
    ensures SamePool(s, Apply(cfg, s, step))
  {
    hide Submit, ExecutionSucceeds, ExecutionFails, SerialisationFails, Publish, Release, TimerFires, LeaderTimesOut,
        LeaderResumes;
    if Enabled(s, step) {
      match step
      case DoSubmit(job, now) => SubmitPool(cfg, s, job, now);
      case DoSucceed(i, _) => PhasePool(s, i);
      case DoFail(i, cause, detail) => FailPool(s, i, cause, detail);
      case DoFailToSerialise(i, _) => PhasePool(s, i);
      case DoPublish(i) => PhasePool(s, i);
      case DoRelease(i) => PhasePool(s, i);
      case DoFireTimer(t) => LeaderPool(cfg, s, t, 0);
      case DoTimeOut(t, now) => LeaderPool(cfg, s, t, now);
      case DoResume(t, now) => LeaderPool(cfg, s, t, now);
      case _ =>
    }
  }

  /** What `start` and `stop` do to the pool. */
  lemma PoolMoves(cfg: Config, s: State, step: Step)
    requires Bounded(cfg, s) && ChangesPool(step)
    ensures var s' := Apply(cfg, s, step);
            match step
            case DoStart => s'.untracked == s.untracked && s'.stopping == s.stopping && s'.late == s.late
            case DoStopBegin =>
              && |s'.tasks| == |s.tasks| && s'.untracked == s.untracked && s'.late == s.late
              && s'.stopping <= s.stopping + 1
            case DoStopEnd =>
              && s'.untracked == s.untracked
              && (s' == s || (s'.stopping == 0 && s'.late == s.late + s.stopping - 1))
            case DoLateStopEnd =>
              if s.late == 0 then s' == s
              else s'.untracked == |s.tasks| && s'.stopping == 0 && s'.late == s.late - 1 + s.stopping
            case _ => true
  {
  }

  /** Step `n` is a `stop` call that clears a pool started after its own one had ended. */
  predicate ClearsForeignPool(cfg: Config, steps: seq<Step>, n: nat) {
    && n < |steps| && steps[n].DoLateStopEnd?
    && var s := Reach(cfg, steps[..n]);
       s.late > 0 && !NoPool(s)
  }

  lemma UntrackedStep(cfg: Config, s: State, step: Step)
    requires Bounded(cfg, s)
    ensures Apply(cfg, s, step).untracked == 0
            <==> s.untracked == 0 && !(step.DoLateStopEnd? && s.late > 0 && !NoPool(s))
  {
    if ChangesPool(step) {
      PoolMoves(cfg, s, step);
    } else {
      PoolFrame(cfg, s, step);
    }
    hide Apply;
  }

  lemma ForeignPoolPrefix(cfg: Config, before: seq<Step>, last: Step, n: nat)
    requires n < |before|
    ensures ClearsForeignPool(cfg, before + [last], n) == ClearsForeignPool(cfg, before, n)
  {
    assert (before + [last])[..n] == before[..n];
    hide Run;
  }

  /** The service tracks every live worker, and there are at most as many as configured, exactly
      as long as no `stop` call has cleared a pool it did not wait for. */
  lemma {:induction false} PoolIsTrackedExactly(cfg: Config, steps: seq<Step>)
    ensures Reach(cfg, steps).untracked == 0 <==> forall n | 0 <= n < |steps| :: !ClearsForeignPool(cfg, steps, n)
    ensures Reach(cfg, steps).untracked == 0 ==> |Reach(cfg, steps).tasks| <= PoolSize(cfg)
  {
    hide Apply;
    ReachableOk(cfg, steps);
    if steps != [] {
      var before, last := steps[..|steps| - 1], steps[|steps| - 1];
      PoolIsTrackedExactly(cfg, before);
      ReachableOk(cfg, before);
      UntrackedStep(cfg, Reach(cfg, before), last);
      assert steps == before + [last] && steps[..|before|] == before;
      forall n | 0 <= n < |before| ensures ClearsForeignPool(cfg, steps, n) == ClearsForeignPool(cfg, before, n) {
        ForeignPoolPrefix(cfg, before, last, n);
      }
      hide Inv, NoPool;
      var s := Reach(cfg, before);
      assert ClearsForeignPool(cfg, steps, |before|) <==> last.DoLateStopEnd? && s.late > 0 && !NoPool(s);
    }
  }

  /** No `stop` call begins while another is in progress. */
  predicate StopsAreSeparate(cfg: Config, steps: seq<Step>) {
    forall n | 0 <= n < |steps| && steps[n].DoStopBegin? ::
      Reach(cfg, steps[..n]).stopping == 0 && Reach(cfg, steps[..n]).late == 0
  }

  /** With separate `stop` calls the pool stays whole. */
  lemma {:induction false} SeparateStopsKeepPool(cfg: Config, steps: seq<Step>)
    requires StopsAreSeparate(cfg, steps)
    ensures var s := Reach(cfg, steps);
            s.untracked == 0 && s.late == 0 && s.stopping <= 1 && |s.tasks| <= PoolSize(cfg)
  {
    ReachableOk(cfg, steps);
    if steps != [] {
      var before, last := steps[..|steps| - 1], steps[|steps| - 1];
      forall n | 0 <= n < |before| && before[n].DoStopBegin?
        ensures Reach(cfg, before[..n]).stopping == 0 && Reach(cfg, before[..n]).late == 0
      {
        assert steps[n] == before[n] && steps[..n] == before[..n];
      }
      SeparateStopsKeepPool(cfg, before);
      assert steps[..|before|] == before;
      ReachableOk(cfg, before);
      if ChangesPool(last) {
        PoolMoves(cfg, Reach(cfg, before), last);
      } else {
        PoolFrame(cfg, Reach(cfg, before), last);
      }
      hide Apply;
    }
  }

  /** Two overlapping `stop` calls: the first one's caller starts a new pool before the second
      resumes and clears it; a further start leaves twice the configured number of workers. */
  lemma OverlappingStopsDoublePool(cfg: Config)
    ensures var s := Reach(cfg, [DoStart, DoStopBegin] + [DoStopBegin] + Deaths(PoolSize(cfg)) + [DoStopEnd, DoStart]
                                + [DoLateStopEnd, DoStart]);
            && s.untracked == PoolSize(cfg) && |s.tasks| == 2 * PoolSize(cfg)
            && forall i | 0 <= i < |s.tasks| :: s.tasks[i].Idle?
  {
    var one, two, deaths := [DoStart, DoStopBegin], [DoStopBegin], Deaths(PoolSize(cfg));
    RunSplits(cfg, INITIAL, one, two);
    RunSplits(cfg, INITIAL, one + two, deaths);
    RunSplits(cfg, INITIAL, one + two + deaths, [DoStopEnd, DoStart]);
    RunSplits(cfg, INITIAL, one + two + deaths + [DoStopEnd, DoStart], [DoLateStopEnd, DoStart]);
    BothStopsBegin(cfg);
    var s3 := Run(cfg, Run(cfg, INITIAL, one), two);
    hide Run, Apply;
    AllDie(cfg, s3, PoolSize(cfg));
    PoolDoubles(cfg, Run(cfg, s3, deaths));
  }

  /** The first stop ends and its caller starts a pool; the second ends and a pool is started. */
  lemma PoolDoubles(cfg: Config, s: State)
    requires s.untracked == 0 && s.stopping == 2 && s.late == 0 && |s.tasks| == PoolSize(cfg)
    requires forall i | 0 <= i < |s.tasks| :: s.tasks[i].Dead?
    ensures var s' := Run(cfg, Run(cfg, s, [DoStopEnd, DoStart]), [DoLateStopEnd, DoStart]);
            && s'.untracked == PoolSize(cfg) && |s'.tasks| == 2 * PoolSize(cfg)
            && forall i | 0 <= i < |s'.tasks| :: s'.tasks[i].Idle?
  {
    var idle := seq(PoolSize(cfg), _ => Idle);
    RunTwo(cfg, s, DoStopEnd, DoStart);
    var s1 := Run(cfg, s, [DoStopEnd, DoStart]);
    RunTwo(cfg, s1, DoLateStopEnd, DoStart);
    hide Run;
    assert s1 == s.(tasks := [] + idle, stopping := 0, late := 1);
    assert Apply(cfg, s1, DoLateStopEnd) == s1.(untracked := |s1.tasks|, late := 0);
  }

  lemma BothStopsBegin(cfg: Config)
    ensures var s := Run(cfg, Run(cfg, INITIAL, [DoStart, DoStopBegin]), [DoStopBegin]);
            && s.tasks == seq(PoolSize(cfg), _ => Idle) && s.untracked == 0 && s.stopping == 2 && s.late == 0
  {
    RunTwo(cfg, INITIAL, DoStart, DoStopBegin);
    var s2 := Run(cfg, INITIAL, [DoStart, DoStopBegin]);
    assert [DoStopBegin][..0] == [];
    assert Run(cfg, s2, [DoStopBegin]) == Apply(cfg, s2, DoStopBegin);
  }

  // ----- Accounting of mutations -----

  /** The mutation is marked and has a reconciliation record. */
  predicate Recorded(s: State, t: nat)
    requires t < |s.admissions|
  {
    s.admissions[t].uncertain && s.admissions[t].job.jobId in s.reconciliation
  }

  /** What is known of an admitted mutation from its future: it is still awaited; or its leader's
      timer cancelled it, and the leader is about to mark it or has; or `stop` broke it and it
      is recorded; or its execution completed, its result is cached, and only a leader that
      stopped waiting marked it; or its execution failed and it is recorded. */
  predicate OutcomeAccounted(s: State, t: nat)
    requires t < |s.admissions|
  {
    var a := s.admissions[t];
    match a.future
    case Pending => a.leader.Waiting?
    case Cancelled => a.leader.Expired? || (a.leader.TimedOut? && Recorded(s, t))
    case Broken(_) => Recorded(s, t)
    case Resolved(Succeeded(_, _)) =>
      && a.job.key in s.results && s.results[a.job.key] == a.future.result
      && (a.uncertain ==> a.leader.TimedOut?)
    case Resolved(Failed(_, _)) => Recorded(s, t)
  }

  /** What its submitter was told: the result of its future, or a failure of a recorded job. */
  predicate AnswerAccounted(s: State, t: nat)
    requires t < |s.admissions|
  {
    var a := s.admissions[t];
    match a.leader
    case Waiting => true
    case Expired => !a.future.Pending?
    case TimedOut => Recorded(s, t)
    case Answered(Ok(r)) => a.future == Resolved(r) && r.Succeeded? && !a.uncertain
    case Answered(Err(_)) => Recorded(s, t)
  }

  predicate Accounted(s: State, t: nat)
    requires t < |s.admissions|
  {
    OutcomeAccounted(s, t) && AnswerAccounted(s, t)
  }

  /** The worker published a failure that was the serialisation of an output, which is outside
      the block that marks mutations, and no leader's timeout has marked the job instead. */
  predicate LostBySerialisation(s: State, t: nat)
    requires t < |s.admissions|
  {
    var a := s.admissions[t];
    a.unserialisable && a.future.Resolved? && !a.leader.TimedOut?
  }

  /** Every admitted mutation is accounted for in every reachable state, except exactly those
      whose handler returned an output that does not serialise. */
  lemma MutationsAccounted(cfg: Config, steps: seq<Step>, t: nat)
    requires t < |Reach(cfg, steps).admissions|
    requires Mutates(Reach(cfg, steps).admissions[t].job)
    ensures var s := Reach(cfg, steps); Accounted(s, t) <==> !LostBySerialisation(s, t)
  {
    hide Run, Apply;
    ReachableOk(cfg, steps);
    assert SettledOk(Reach(cfg, steps), t);
  }

  lemma {:induction false} OutputsSerialise(cfg: Config, steps: seq<Step>)
    requires forall i | 0 <= i < |steps| :: !steps[i].DoFailToSerialise?
    ensures forall t | 0 <= t < |Reach(cfg, steps).admissions| :: !Reach(cfg, steps).admissions[t].unserialisable
  {
    if steps != [] {
      OutputsSerialise(cfg, steps[..|steps| - 1]);
      StepEffects(cfg, Reach(cfg, steps[..|steps| - 1]), steps[|steps| - 1]);
      hide Apply;
    }
  }

  /** In a run in which every handler's output serialises, every admitted mutation is accounted
      for at every moment. */
  lemma AllAccountedWhenOutputsSerialise(cfg: Config, steps: seq<Step>, n: nat, t: nat)
    requires n <= |steps| && forall i | 0 <= i < |steps| :: !steps[i].DoFailToSerialise?
    requires t < |Reach(cfg, steps[..n]).admissions| && Mutates(Reach(cfg, steps[..n]).admissions[t].job)
    ensures Accounted(Reach(cfg, steps[..n]), t)
  {
    hide Run, Apply;
    OutputsSerialise(cfg, steps[..n]);
    MutationsAccounted(cfg, steps[..n], t);
  }

  /** And otherwise a mutation can be lost: its handler ran to the end, its submitter is told a
      plain failure, and the reconciliation table stays empty. */
  lemma SerialisationLosesMutation(cfg: Config, job: Job, cause: Exn, now: int)
    requires Authentic(cfg, job) && Mutates(job)
    ensures var s := Reach(cfg, [DoStart, DoSubmit(job, now)] + [DoTake(0), DoFailToSerialise(0, cause)]
                                + [DoPublish(0), DoResume(0, now)]);
            && |s.admissions| == 1 && LostBySerialisation(s, 0) && !Accounted(s, 0)
            && s.admissions[0].leader == Answered(Err(LeaderError(cause)))
            && s.reconciliation == map[]
  {
    var first, second := [DoStart, DoSubmit(job, now)], [DoTake(0), DoFailToSerialise(0, cause)];
    var third := [DoPublish(0), DoResume(0, now)];
    AdmittedFirst(cfg, job, now);
    RunSplits(cfg, INITIAL, first, second);
    RunSplits(cfg, INITIAL, first + second, third);
    var s2 := FirstAdmitted(cfg, job, now);
    RunTwo(cfg, s2, DoTake(0), DoFailToSerialise(0, cause));
    FailsToSerialise(cfg, s2, job, cause);
    var s4 := Run(cfg, s2, second);
    RunTwo(cfg, s4, DoPublish(0), DoResume(0, now));
    hide Run, FirstAdmitted;
    FailureIsTold(cfg, s4, Admission(job, Pending, Waiting, false, true, false), cause, now);
    hide Apply;
  }

  lemma FailsToSerialise(cfg: Config, s: State, job: Job, cause: Exn)
    requires s.tasks == seq(PoolSize(cfg), _ => Idle) && s.queue == [0]
    requires s.admissions == [Admission(job, Pending, Waiting, false, false, false)]
    ensures var s' := Apply(cfg, Apply(cfg, s, DoTake(0)), DoFailToSerialise(0, cause));
            && |s'.tasks| > 0 && s'.tasks[0] == Executed(0, Failed(job.jobId, cause))
            && s'.admissions == [Admission(job, Pending, Waiting, false, true, false)]
            && s'.reconciliation == s.reconciliation
  {
    var s1 := Apply(cfg, s, DoTake(0));
    assert s1 == Take(s, 0) && s1.tasks[0] == Executing(0) && s1.admissions == s.admissions;
    assert Apply(cfg, s1, DoFailToSerialise(0, cause)) == SerialisationFails(s1, 0, cause);
    hide Apply;
  }

  /** The only admitted job has failed; its worker publishes that and its leader resumes. */
  lemma FailureIsTold(cfg: Config, s: State, a: Admission, cause: Exn, now: int)
    requires |s.tasks| > 0 && s.tasks[0] == Executed(0, Failed(a.job.jobId, cause))
    requires s.admissions == [a] && a.future.Pending? && a.leader.Waiting?
    ensures var s' := Apply(cfg, Apply(cfg, s, DoPublish(0)), DoResume(0, now));
            && s'.reconciliation == s.reconciliation
            && s'.admissions == [a.(future := Resolved(Failed(a.job.jobId, cause)),
                                    leader := Answered(Err(LeaderError(cause))))]
  {
    var s1 := Apply(cfg, s, DoPublish(0));
    assert s1 == Publish(s, 0);
    assert s1.admissions == [a.(future := Resolved(Failed(a.job.jobId, cause)))];
    assert Apply(cfg, s1, DoResume(0, now)) == LeaderResumes(cfg, s1, 0, now);
    hide Apply;
  }

  /** The table holds nothing else, so when job ids are unique a mutation reported as a
      success has no record. */
  lemma SuccessHasNoRecord(cfg: Config, steps: seq<Step>, t: nat)
    requires t < |Reach(cfg, steps).admissions|
    requires var s := Reach(cfg, steps);
             forall u, v | 0 <= u < v < |s.admissions| :: s.admissions[u].job.jobId != s.admissions[v].job.jobId
    requires var a := Reach(cfg, steps).admissions[t];
             Mutates(a.job) && a.leader.Answered? && a.leader.answer.Ok?
    ensures Reach(cfg, steps).admissions[t].job.jobId !in Reach(cfg, steps).reconciliation
  {
    hide Run, Apply;
    ReachableOk(cfg, steps);
    var s := Reach(cfg, steps);
    assert SettledOk(s, t);
    forall u | 0 <= u < |s.admissions| && s.admissions[u].uncertain
        ensures s.admissions[u].job.jobId != s.admissions[t].job.jobId {}
    assert !MarkedJob(s, s.admissions[t].job.jobId);
  }

  /** A mutation interrupted by `stop` is never reported to its submitter as a success, now or
      after any restart, and its record stays. */
  lemma StoppedMutationStaysUncertain(cfg: Config, steps: seq<Step>, more: seq<Step>, t: nat)
    requires var s := Reach(cfg, steps);
             t < |s.admissions| && Mutates(s.admissions[t].job) && Unfinished(s, t)
    ensures var s := Reach(cfg, steps + [DoStopBegin] + more);
            && t < |s.admissions| && s.admissions[t].future == Broken(STOPPED_MUTATION)
            && s.admissions[t].job.jobId in s.reconciliation
            && !(s.admissions[t].leader.Answered? && s.admissions[t].leader.answer.Ok?)
  {
    var before := steps + [DoStopBegin];
    assert before[..|steps|] == steps;
    RunSplits(cfg, INITIAL, before, more);
    StopMove(Reach(cfg, steps), t);
    RunGrows(cfg, Reach(cfg, before), more);
    BrokenIsRecorded(cfg, before + more, t);
  }

  lemma BrokenIsRecorded(cfg: Config, steps: seq<Step>, t: nat)
    requires var s := Reach(cfg, steps);
             t < |s.admissions| && s.admissions[t].future.Broken? && Mutates(s.admissions[t].job)
    ensures var s := Reach(cfg, steps);
            && s.admissions[t].job.jobId in s.reconciliation
            && !(s.admissions[t].leader.Answered? && s.admissions[t].leader.answer.Ok?)
  {
    hide Run, Apply;
    ReachableOk(cfg, steps);
    assert SettledOk(Reach(cfg, steps), t);
  }

  // ----- The breaker in front of the queue -----

  predicate InWindow(step: Step, from: int, until: int) {
    (step.DoSubmit? || step.DoTimeOut? || step.DoResume?) ==> from <= step.now < until
  }

  /** Open through the cool-down: tripped, with its latest failure no earlier than `from`. */
  predicate TrippedSince(limits: Circuit.Limits, log: seq<Circuit.Event>, from: int) {
    && Circuit.Tripped(limits, log)
    && var latest := Circuit.LatestFailure(Circuit.SinceReset(limits, log));
       latest.Some? && latest.value >= from
  }

  lemma EventKeepsTripped(limits: Circuit.Limits, log: seq<Circuit.Event>, e: Circuit.Event, from: int)
    requires TrippedSince(limits, log, from)
    requires !e.Succeeded? && from <= e.at < from + limits.resetTimeout
    ensures TrippedSince(limits, log + [e], from)
  {
    var whole := log + [e];
    assert whole[..|whole| - 1] == log && whole[|whole| - 1] == e;
    assert !Circuit.EndsInReset(limits, whole);
    var tail := Circuit.SinceReset(limits, log);
    assert Circuit.SinceReset(limits, whole) == tail + [e];
    assert (tail + [e])[..|tail|] == tail;
  }

  /** What a submission appends to the log while the breaker is open: only the question. */
  lemma RefusedWhileTripped(cfg: Config, s: State, job: Job, now: int, from: int)
    requires BreakerOk(cfg, s) && TrippedSince(cfg.limits, s.breakerLog, from)
            && from <= now < from + cfg.limits.resetTimeout
    ensures var s' := Submit(cfg, s, job, now).0;
            && s'.admissions == s.admissions
            && TrippedSince(cfg.limits, s'.breakerLog, from)
  {
    Circuit.RefusedExactlyInCooldown(cfg.limits, s.breakerLog, now);
    EventKeepsTripped(cfg.limits, s.breakerLog, Circuit.Asked(now), from);
  }

  /** While a breaker tripped at `from` cools down and no success is reported, no step of any
      interleaving admits a job. */
  lemma {:induction false} NothingAdmittedInCooldown(cfg: Config, s: State, more: seq<Step>, from: int)
    requires Inv(cfg, s) && TrippedSince(cfg.limits, s.breakerLog, from)
    requires forall i | 0 <= i < |more| :: InWindow(more[i], from, from + cfg.limits.resetTimeout)
    requires NoSuccessAfter(Run(cfg, s, more).breakerLog, |s.breakerLog|)
    ensures |Run(cfg, s, more).admissions| == |s.admissions|
    ensures TrippedSince(cfg.limits, Run(cfg, s, more).breakerLog, from)
  {
    if more != [] {
      var shorter, last := more[..|more| - 1], more[|more| - 1];
      var s1 := Run(cfg, s, shorter);
      RunGrows(cfg, s, shorter);
      StepEffects(cfg, s1, last);
      PrefixHasNoSuccess(s1.breakerLog, Run(cfg, s, more).breakerLog, |s.breakerLog|);
      NothingAdmittedInCooldown(cfg, s, shorter, from);
      RunKeeps(cfg, s, shorter);
      StepWhileTripped(cfg, s1, last, from, |s.breakerLog|);
    }
  }

  predicate NoSuccessAfter(log: seq<Circuit.Event>, n: nat) {
    forall i | n <= i < |log| :: !log[i].Succeeded?
  }

  lemma PrefixHasNoSuccess(log: seq<Circuit.Event>, longer: seq<Circuit.Event>, n: nat)
    requires log <= longer && NoSuccessAfter(longer, n)
    ensures NoSuccessAfter(log, n)
  {
    forall i | n <= i < |log| ensures !log[i].Succeeded? { assert log[i] == longer[i]; }
  }

  lemma StepWhileTripped(cfg: Config, s: State, step: Step, from: int, n: nat)
    requires BreakerOk(cfg, s) && TrippedSince(cfg.limits, s.breakerLog, from) && n <= |s.breakerLog|
    requires InWindow(step, from, from + cfg.limits.resetTimeout)
    requires NoSuccessAfter(Apply(cfg, s, step).breakerLog, n)
    ensures |Apply(cfg, s, step).admissions| == |s.admissions|
    ensures TrippedSince(cfg.limits, Apply(cfg, s, step).breakerLog, from)
  {
    var log' := Apply(cfg, s, step).breakerLog;
    if step.DoSubmit? {
      RefusedWhileTripped(cfg, s, step.job, step.now, from);
    } else {
      StepEffects(cfg, s, step);
      if log' != s.breakerLog {
        assert log'[|s.breakerLog|] != Circuit.Succeeded;
        EventKeepsTripped(cfg.limits, s.breakerLog, log'[|s.breakerLog|], from);
      }
    }
  }
}
