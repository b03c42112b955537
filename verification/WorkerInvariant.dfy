/** The inductive invariant of the worker protocol: who owns a ticket, what the result cache may
    hold, and which mutations are marked for review.  Every step keeps it. */
module WorkerInvariant {
  import opened Common
  import Circuit
  import opened Workers

  predicate Known(s: State, t: nat) {
    t < |s.admissions|
  }

  /** The key of an admitted job. */
  function KeyOf(s: State, t: nat): string
    requires Known(s, t)
  {
    s.admissions[t].job.key
  }

  // ----- Ownership -----

  predicate QueueOwns(s: State) {
    && (forall i | 0 <= i < |s.queue| :: Known(s, s.queue[i]) && KeyOf(s, s.queue[i]) in s.inflight
                                          && s.inflight[KeyOf(s, s.queue[i])] == s.queue[i])
    && (forall i, j | 0 <= i < j < |s.queue| :: s.queue[i] != s.queue[j])
  }

  predicate WorkersOwn(s: State) {
    && (forall i | 0 <= i < |s.tasks| && Busy(s.tasks[i]) ::
          && Known(s, s.tasks[i].ticket)
          && KeyOf(s, s.tasks[i].ticket) in s.inflight
          && s.inflight[KeyOf(s, s.tasks[i].ticket)] == s.tasks[i].ticket
          && s.tasks[i].ticket !in s.queue)
    && (forall i, j | 0 <= i < j < |s.tasks| && Busy(s.tasks[i]) && Busy(s.tasks[j]) ::
          s.tasks[i].ticket != s.tasks[j].ticket)
  }

  /** A worker is busy with this ticket. */
  predicate HeldByWorker(s: State, t: nat) {
    exists i | 0 <= i < |s.tasks| :: Holds(s.tasks[i], t)
  }

  /** An in-flight entry is queued, held by a worker, or left behind by a drained job. */
  predicate InflightExplained(s: State) {
    forall k | k in s.inflight ::
      var t := s.inflight[k];
      && Known(s, t) && KeyOf(s, t) == k
      && (t in s.queue || HeldByWorker(s, t) || s.admissions[t].drained)
  }

  predicate DrainedStay(s: State) {
    forall t | 0 <= t < |s.admissions| && s.admissions[t].drained ::
      && KeyOf(s, t) in s.inflight && s.inflight[KeyOf(s, t)] == t
      && t !in s.queue
      && KeyOf(s, t) !in s.results
      && !s.admissions[t].future.Pending?
      && !s.admissions[t].future.Resolved?
      && (forall i | 0 <= i < |s.tasks| :: !Holds(s.tasks[i], t))
  }

  predicate Bounded(cfg: Config, s: State) {
    && (0 < cfg.queueSize ==> |s.queue| <= cfg.queueSize)
    && s.untracked <= |s.tasks| <= s.untracked + PoolSize(cfg)
    && (s.stopping > 0 ==> !NoPool(s))
  }

  // ----- The result cache -----

  /** The ticket has not been executed yet. */
  predicate Unexecuted(s: State, t: nat)
    requires Known(s, t)
  {
    var a := s.admissions[t];
    && a.job.key !in s.results
    && !a.future.Resolved?
    && !a.unserialisable
    && (a.uncertain ==> MarkedFromOutside(a))
  }

  /** Marked for review by a timeout or by `stop`, rather than by its own execution. */
  predicate MarkedFromOutside(a: Admission) {
    a.leader.TimedOut? || a.future.Broken? || a.future.Cancelled?
  }

  predicate QueueUnexecuted(s: State) {
    forall i | 0 <= i < |s.queue| :: Known(s, s.queue[i]) && Unexecuted(s, s.queue[i])
  }

  /** What a worker's phase says about its ticket. */
  predicate PhaseOk(s: State, w: Worker) {
    match w
    case Executing(t) => Known(s, t) && Unexecuted(s, t)
    case Executed(t, r) =>
      && Known(s, t)
      && !s.admissions[t].future.Resolved?
      && r.jobId == s.admissions[t].job.jobId
      && ResultOk(s, t, r)
      && (s.admissions[t].uncertain && (r.Succeeded? || s.admissions[t].unserialisable)
          ==> MarkedFromOutside(s.admissions[t]))
    case _ => true
  }

  /** A result that belongs to ticket `t`: a success is the cached one, and a failed mutation
      is marked unless its output could not be serialised. */
  predicate ResultOk(s: State, t: nat, r: WorkerResult)
    requires Known(s, t)
  {
    var a := s.admissions[t];
    match r
    case Succeeded(_, _) => a.job.key in s.results && s.results[a.job.key] == r && !a.unserialisable
    case Failed(_, _) => Mutates(a.job) ==> a.uncertain || a.unserialisable
  }

  predicate PhasesOk(s: State) {
    forall i | 0 <= i < |s.tasks| :: PhaseOk(s, s.tasks[i])
  }

  predicate CacheOk(s: State) {
    forall k | k in s.results :: s.results[k].Succeeded?
  }

  // ----- Accounting of mutations -----

  predicate SettledOk(s: State, t: nat)
    requires Known(s, t)
  {
    var a := s.admissions[t];
    // the future
    && (a.future.Resolved? ==>
          && ResultOk(s, t, a.future.result)
          && (a.uncertain && (a.future.result.Succeeded? || a.unserialisable) ==> a.leader.TimedOut?))
    && (a.future.Broken? && Mutates(a.job) ==> a.uncertain)
    && (a.future.Cancelled? ==> a.leader.Expired? || a.leader.TimedOut?)
    && (a.future.Pending? ==> a.leader.Waiting?)
    // the leader
    && (a.leader.TimedOut? && Mutates(a.job) ==> a.uncertain)
    && (a.leader.Answered? ==> (a.future.Resolved? || a.future.Broken?) && a.leader.answer == AnswerOf(a.future))
    // the record
    && (a.uncertain ==> Mutates(a.job) && a.job.jobId in s.reconciliation)
  }

  predicate AllSettledOk(s: State) {
    forall t | 0 <= t < |s.admissions| :: SettledOk(s, t)
  }

  /** Every reconciliation record belongs to an admitted job that was marked. */
  predicate RecordsOwned(s: State) {
    forall id | id in s.reconciliation :: MarkedJob(s, id)
  }

  predicate MarkedJob(s: State, id: string) {
    exists t | 0 <= t < |s.admissions| :: s.admissions[t].uncertain && s.admissions[t].job.jobId == id
  }

  // ----- The breaker and authentication -----

  predicate BreakerOk(cfg: Config, s: State) {
    s.breaker == Circuit.Replay(cfg.limits, s.breakerLog)
  }

  predicate AllAuthentic(cfg: Config, s: State) {
    forall t | 0 <= t < |s.admissions| :: Authentic(cfg, s.admissions[t].job)
  }

  predicate Ownership(cfg: Config, s: State) {
    && QueueOwns(s) && WorkersOwn(s) && InflightExplained(s) && DrainedStay(s) && Bounded(cfg, s)
  }

  predicate Accounting(cfg: Config, s: State) {
    && QueueUnexecuted(s) && PhasesOk(s) && CacheOk(s) && AllSettledOk(s) && RecordsOwned(s)
    && BreakerOk(cfg, s) && AllAuthentic(cfg, s)
  }

  predicate Inv(cfg: Config, s: State) {
    Ownership(cfg, s) && Accounting(cfg, s)
  }

  // ----- Every step keeps the invariant -----

  lemma ReplayStep(limits: Circuit.Limits, log: seq<Circuit.Event>, e: Circuit.Event)
    ensures Circuit.Replay(limits, log + [e]) == Circuit.React(limits, Circuit.Replay(limits, log), e)
  {
    hide Circuit.React;
    assert (log + [e])[..|log|] == log;
  }

  lemma ReportKeeps(cfg: Config, s: State, e: Circuit.Event)
    requires Inv(cfg, s)
    ensures Inv(cfg, Report(cfg, s, e))
  {
    ReplayStep(cfg.limits, s.breakerLog, e);
    var s' := Report(cfg, s, e);
    assert forall k | k in s'.inflight :: HeldByWorker(s', s'.inflight[k]) <==> HeldByWorker(s, s.inflight[k]);
    forall t | 0 <= t < |s'.admissions| ensures SettledOk(s', t) { assert SettledOk(s, t); }
    forall id | id in s'.reconciliation ensures MarkedJob(s', id) { assert MarkedJob(s, id); }
    forall i | 0 <= i < |s'.tasks| ensures PhaseOk(s', s'.tasks[i]) { assert PhaseOk(s, s.tasks[i]); }
  }

  /** The state after an admission. */
  function Admit(s: State, job: Job): State {
    s.(admissions := s.admissions + [Admission(job, Pending, Waiting, false, false, false)],
       inflight := s.inflight[job.key := |s.admissions|],
       queue := s.queue + [|s.admissions|])
  }

  lemma AdmitKeepsExplained(s: State, job: Job)
    requires InflightExplained(s) && job.key !in s.inflight
    ensures InflightExplained(Admit(s, job))
  {
    var s' := Admit(s, job);
    forall k | k in s'.inflight
      ensures Known(s', s'.inflight[k]) && KeyOf(s', s'.inflight[k]) == k
      ensures s'.inflight[k] in s'.queue || HeldByWorker(s', s'.inflight[k]) || s'.admissions[s'.inflight[k]].drained
    {
      if k == job.key {
        assert s'.queue[|s.queue|] == |s.admissions|;
      } else {
        assert HeldByWorker(s, s.inflight[k]) ==> HeldByWorker(s', s.inflight[k]);
      }
    }
  }

  lemma AdmitKeepsOwnership(cfg: Config, s: State, job: Job)
    requires Ownership(cfg, s)
    requires job.key !in s.results && job.key !in s.inflight && !QueueFull(cfg, s)
    ensures Ownership(cfg, Admit(s, job))
  {
    AdmitKeepsExplained(s, job);
  }

  lemma AdmitKeepsAccounting(cfg: Config, s: State, job: Job)
    requires Inv(cfg, s) && Authentic(cfg, job)
    requires job.key !in s.results && job.key !in s.inflight
    ensures Accounting(cfg, Admit(s, job))
  {
    var s' := Admit(s, job);
    forall i | 0 <= i < |s'.tasks| ensures PhaseOk(s', s'.tasks[i]) { assert PhaseOk(s, s.tasks[i]); }
    forall u | 0 <= u < |s'.admissions| ensures SettledOk(s', u) {
      if u < |s.admissions| { assert SettledOk(s, u); }
    }
    forall id | id in s'.reconciliation ensures MarkedJob(s', id) {
      assert MarkedJob(s, id);
      var u :| 0 <= u < |s.admissions| && s.admissions[u].uncertain && s.admissions[u].job.jobId == id;
      assert s'.admissions[u] == s.admissions[u];
    }
    forall i | 0 <= i < |s'.queue| ensures Known(s', s'.queue[i]) && Unexecuted(s', s'.queue[i]) {
      if i < |s.queue| { assert Unexecuted(s, s.queue[i]); }
    }
  }

  lemma SubmitKeeps(cfg: Config, s: State, job: Job, now: int)
    requires Inv(cfg, s)
    ensures Inv(cfg, Submit(cfg, s, job, now).0)
  {
    if !NoPool(s) {
      ReportKeeps(cfg, s, Circuit.Asked(now));
      var s1 := Report(cfg, s, Circuit.Asked(now));
      if !Circuit.IsOpen(cfg.limits, s.breaker, now) && Authentic(cfg, job)
         && job.key !in s1.results && job.key !in s1.inflight {
        if QueueFull(cfg, s1) {
          ReportKeeps(cfg, s1, Circuit.Failed(now));
        } else {
          AdmitKeepsOwnership(cfg, s1, job);
          AdmitKeepsAccounting(cfg, s1, job);
        }
      }
    }
  }

  // ----- Steps that touch one ticket -----

  /** `s'` differs from `s` only in the phase of workers (each keeping its ticket) and in what
      is known about jobs, so nobody's ownership changes. */
  predicate SameOwners(s: State, s': State) {
    && s'.queue == s.queue && s'.inflight == s.inflight
    && |s'.tasks| == |s.tasks| && s'.untracked == s.untracked && s'.stopping == s.stopping
    && (forall i | 0 <= i < |s.tasks| ::
          && (Busy(s.tasks[i]) <==> Busy(s'.tasks[i]))
          && (Busy(s.tasks[i]) ==> s.tasks[i].ticket == s'.tasks[i].ticket))
    && |s'.admissions| == |s.admissions|
    && (forall t | 0 <= t < |s.admissions| ::
          && s'.admissions[t].job == s.admissions[t].job
          && s'.admissions[t].drained == s.admissions[t].drained
          && (s.admissions[t].drained ==>
                && (KeyOf(s, t) in s'.results ==> KeyOf(s, t) in s.results)
                && s'.admissions[t].future == s.admissions[t].future))
  }

  lemma SameOwnersKeepOwnership(cfg: Config, s: State, s': State)
    requires Ownership(cfg, s) && SameOwners(s, s')
    ensures Ownership(cfg, s')
  {
    forall k | k in s'.inflight
      ensures HeldByWorker(s, s'.inflight[k]) ==> HeldByWorker(s', s'.inflight[k])
    {
      if HeldByWorker(s, s'.inflight[k]) {
        var i :| 0 <= i < |s.tasks| && Holds(s.tasks[i], s'.inflight[k]);
        assert Holds(s'.tasks[i], s'.inflight[k]);
      }
    }
  }

  /** `s'` differs from `s` only in the ticket `t`: its admission, its worker's phase, its
      reconciliation record and the cached result of its key. */
  predicate TouchesOnly(s: State, s': State, t: nat) {
    && Known(s, t)
    && s'.queue == s.queue && s'.breaker == s.breaker && s'.breakerLog == s.breakerLog
    && |s'.tasks| == |s.tasks|
    && (forall i | 0 <= i < |s.tasks| && !Holds(s.tasks[i], t) :: s'.tasks[i] == s.tasks[i])
    && |s'.admissions| == |s.admissions|
    && s'.admissions[t].job == s.admissions[t].job
    && (forall u | 0 <= u < |s.admissions| && u != t :: s'.admissions[u] == s.admissions[u])
    && (forall k | k in s.results :: k in s'.results && s'.results[k] == s.results[k])
    && (forall k | k in s'.results :: k in s.results || (k == KeyOf(s, t) && s'.results[k].Succeeded?))
    && s.reconciliation.Keys <= s'.reconciliation.Keys
    && (forall id | id in s'.reconciliation :: id in s.reconciliation || id == s.admissions[t].job.jobId)
    && (s.admissions[t].uncertain ==> s'.admissions[t].uncertain)
    && (forall id | id in s'.reconciliation && id !in s.reconciliation :: s'.admissions[t].uncertain)
  }

  /** The cached results only grow for a ticket that a worker executes. */
  predicate CacheGrowsForHolder(s: State, s': State, t: nat) {
    s'.results == s.results || HeldByWorker(s, t)
  }

  lemma OthersSettled(cfg: Config, s: State, s': State, t: nat)
    requires Inv(cfg, s) && TouchesOnly(s, s', t)
    ensures forall u | 0 <= u < |s'.admissions| && u != t :: SettledOk(s', u)
    ensures RecordsOwned(s') && CacheOk(s') && BreakerOk(cfg, s') && AllAuthentic(cfg, s')
  {
    forall u | 0 <= u < |s'.admissions| && u != t ensures SettledOk(s', u) { assert SettledOk(s, u); }
    forall id | id in s'.reconciliation ensures MarkedJob(s', id) {
      if id in s.reconciliation {
        assert MarkedJob(s, id);
        var u :| 0 <= u < |s.admissions| && s.admissions[u].uncertain && s.admissions[u].job.jobId == id;
        assert s'.admissions[u].uncertain && s'.admissions[u].job.jobId == id;
      } else {
        assert s'.admissions[t].uncertain && s'.admissions[t].job.jobId == id;
      }
    }
  }

  lemma OthersUnexecuted(cfg: Config, s: State, s': State, t: nat)
    requires Inv(cfg, s) && TouchesOnly(s, s', t) && CacheGrowsForHolder(s, s', t)
    ensures forall i | 0 <= i < |s'.queue| && s'.queue[i] != t :: Known(s', s'.queue[i]) && Unexecuted(s', s'.queue[i])
    ensures forall i | 0 <= i < |s'.tasks| && !Holds(s.tasks[i], t) :: PhaseOk(s', s'.tasks[i])
  {
    forall i | 0 <= i < |s'.queue| && s'.queue[i] != t ensures Known(s', s'.queue[i]) && Unexecuted(s', s'.queue[i]) {
      assert Unexecuted(s, s.queue[i]);
    }
    forall i | 0 <= i < |s'.tasks| && !Holds(s.tasks[i], t) ensures PhaseOk(s', s'.tasks[i]) {
      assert PhaseOk(s, s.tasks[i]);
      assert Busy(s.tasks[i]) && s'.results != s.results ==> KeyOf(s, s.tasks[i].ticket) != KeyOf(s, t);
    }
  }

  /** At most one worker holds a ticket, and a held ticket is not queued. */
  lemma HolderIsUnique(cfg: Config, s: State, i: nat)
    requires Ownership(cfg, s) && i < |s.tasks| && Busy(s.tasks[i])
    ensures s.tasks[i].ticket !in s.queue
    ensures forall j | 0 <= j < |s.tasks| && j != i :: !Holds(s.tasks[j], s.tasks[i].ticket)
    ensures Known(s, s.tasks[i].ticket) && !s.admissions[s.tasks[i].ticket].drained
    ensures HeldByWorker(s, s.tasks[i].ticket)
  {
    assert Holds(s.tasks[i], s.tasks[i].ticket);
  }

  /** What the invariant says about worker `i` and its own ticket. */
  predicate HolderOk(s: State, i: nat) {
    && i < |s.tasks| && Busy(s.tasks[i]) && Known(s, s.tasks[i].ticket)
    && !s.admissions[s.tasks[i].ticket].drained
    && (forall j | 0 <= j < |s.tasks| && j != i :: !Holds(s.tasks[j], s.tasks[i].ticket))
    && PhaseOk(s, s.tasks[i]) && SettledOk(s, s.tasks[i].ticket)
  }

  /** What a step of worker `i` must establish about its own ticket. */
  predicate LocalStep(s: State, s': State, i: nat)
    requires HolderOk(s, i)
  {
    && TouchesOnly(s, s', s.tasks[i].ticket) && SameOwners(s, s')
    && PhaseOk(s', s'.tasks[i]) && SettledOk(s', s.tasks[i].ticket)
  }

  lemma HolderIsOk(cfg: Config, s: State, i: nat)
    requires Inv(cfg, s) && i < |s.tasks| && Busy(s.tasks[i])
    ensures HolderOk(s, i)
  {
    HolderIsUnique(cfg, s, i);
  }

  lemma SucceedIsLocal(s: State, i: nat, output: Args)
    requires HolderOk(s, i) && s.tasks[i].Executing?
    requires forall u | 0 <= u < |s.admissions| && s.admissions[u].drained :: KeyOf(s, u) != KeyOf(s, s.tasks[i].ticket)
    ensures LocalStep(s, ExecutionSucceeds(s, i, output), i)
  {
  }

  lemma FailTouches(s: State, i: nat, cause: Exn, detail: string)
    requires HolderOk(s, i) && s.tasks[i].Executing?
    ensures TouchesOnly(s, ExecutionFails(s, i, cause, detail), s.tasks[i].ticket)
  {
  }

  lemma FailIsLocal(s: State, i: nat, cause: Exn, detail: string)
    requires HolderOk(s, i) && s.tasks[i].Executing?
    ensures LocalStep(s, ExecutionFails(s, i, cause, detail), i)
  {
    FailTouches(s, i, cause, detail);
  }

  lemma FailToSerialiseIsLocal(s: State, i: nat, cause: Exn)
    requires HolderOk(s, i) && s.tasks[i].Executing?
    ensures LocalStep(s, SerialisationFails(s, i, cause), i)
  {
  }

  lemma CancelIsLocal(s: State, i: nat)
    requires HolderOk(s, i) && s.tasks[i].Executing?
    ensures LocalStep(s, SetWorker(s, i, Releasing(s.tasks[i].ticket, true)), i)
  {
    assert SettledOk(SetWorker(s, i, Releasing(s.tasks[i].ticket, true)), s.tasks[i].ticket);
  }

  lemma PublishTouches(s: State, i: nat)
    requires HolderOk(s, i) && s.tasks[i].Executed?
    ensures TouchesOnly(s, Publish(s, i), s.tasks[i].ticket)
  {
  }

  lemma PublishIsLocal(s: State, i: nat)
    requires HolderOk(s, i) && s.tasks[i].Executed?
    ensures LocalStep(s, Publish(s, i), i)
  {
    PublishTouches(s, i);
    assert SettledOk(Publish(s, i), s.tasks[i].ticket);
  }

  /** A step of worker `i` on its own ticket keeps the invariant when its new phase and the
      settlement of the ticket are right. */
  lemma WorkerStepKeeps(cfg: Config, s: State, s': State, i: nat)
    requires Inv(cfg, s) && HolderOk(s, i) && LocalStep(s, s', i)
    ensures Inv(cfg, s')
  {
    var t := s.tasks[i].ticket;
    assert Holds(s.tasks[i], t);
    SameOwnersKeepOwnership(cfg, s, s');
    OthersSettled(cfg, s, s', t);
    OthersUnexecuted(cfg, s, s', t);
  }

  lemma SucceedKeeps(cfg: Config, s: State, i: nat, output: Args)
    requires Inv(cfg, s) && ExecutingAt(s, i)
    ensures Inv(cfg, ExecutionSucceeds(s, i, output))
  {
    HolderIsOk(cfg, s, i);
    SucceedIsLocal(s, i, output);
    WorkerStepKeeps(cfg, s, ExecutionSucceeds(s, i, output), i);
  }

  lemma FailKeeps(cfg: Config, s: State, i: nat, cause: Exn, detail: string)
    requires Inv(cfg, s) && ExecutingAt(s, i)
    ensures Inv(cfg, ExecutionFails(s, i, cause, detail))
  {
    HolderIsOk(cfg, s, i);
    FailIsLocal(s, i, cause, detail);
    WorkerStepKeeps(cfg, s, ExecutionFails(s, i, cause, detail), i);
  }

  lemma FailToSerialiseKeeps(cfg: Config, s: State, i: nat, cause: Exn)
    requires Inv(cfg, s) && ExecutingAt(s, i)
    ensures Inv(cfg, SerialisationFails(s, i, cause))
  {
    HolderIsOk(cfg, s, i);
    FailToSerialiseIsLocal(s, i, cause);
    WorkerStepKeeps(cfg, s, SerialisationFails(s, i, cause), i);
  }

  lemma CancelKeeps(cfg: Config, s: State, i: nat)
    requires Inv(cfg, s) && ExecutingAt(s, i)
    ensures Inv(cfg, SetWorker(s, i, Releasing(s.tasks[i].ticket, true)))
  {
    HolderIsOk(cfg, s, i);
    CancelIsLocal(s, i);
    WorkerStepKeeps(cfg, s, SetWorker(s, i, Releasing(s.tasks[i].ticket, true)), i);
  }

  lemma PublishKeeps(cfg: Config, s: State, i: nat)
    requires Inv(cfg, s) && i < |s.tasks| && s.tasks[i].Executed? && Known(s, s.tasks[i].ticket)
    ensures Inv(cfg, Publish(s, i))
  {
    HolderIsOk(cfg, s, i);
    PublishIsLocal(s, i);
    WorkerStepKeeps(cfg, s, Publish(s, i), i);
  }

  // ----- Steps of a leader -----

  /** A leader's step never resolves the future, and marks only what it times out. */
  predicate LeaderMove(a: Admission, a': Admission) {
    && a'.job == a.job && a'.unserialisable == a.unserialisable && a'.drained == a.drained
    && (a'.future == a.future || (a.future.Pending? && a'.future.Cancelled?))
    && (a.uncertain ==> a'.uncertain)
    && (a'.uncertain ==> a.uncertain || a'.leader.TimedOut?)
    && (a.leader.TimedOut? ==> a'.leader.TimedOut?)
  }

  lemma LeaderStepKeeps(cfg: Config, s: State, s': State, t: nat)
    requires Inv(cfg, s) && TouchesOnly(s, s', t)
    requires s'.untracked == s.untracked && s'.stopping == s.stopping
    requires s'.tasks == s.tasks && s'.results == s.results && s'.inflight == s.inflight
    requires LeaderMove(s.admissions[t], s'.admissions[t]) && SettledOk(s', t)
    ensures Inv(cfg, s')
  {
    assert SameOwners(s, s') by {
      assert s.admissions[t].drained ==> s'.admissions[t].future == s.admissions[t].future;
    }
    SameOwnersKeepOwnership(cfg, s, s');
    OthersSettled(cfg, s, s', t);
    OthersUnexecuted(cfg, s, s', t);
    assert QueueUnexecuted(s');
    forall i | 0 <= i < |s'.tasks| ensures PhaseOk(s', s'.tasks[i]) {
      assert PhaseOk(s, s.tasks[i]);
    }
  }

  /** What a leader's step must establish about its own ticket. */
  predicate LocalMove(s: State, s': State, t: nat) {
    && TouchesOnly(s, s', t)
    && s'.tasks == s.tasks && s'.results == s.results && s'.inflight == s.inflight
    && LeaderMove(s.admissions[t], s'.admissions[t]) && SettledOk(s', t)
  }

  lemma TimerTouches(s: State, t: nat)
    requires Known(s, t) && s.admissions[t].leader.Waiting?
    ensures TouchesOnly(s, TimerFires(s, t), t)
  {
  }

  lemma TimerIsLocal(s: State, t: nat)
    requires Known(s, t) && s.admissions[t].leader.Waiting? && SettledOk(s, t)
    ensures LocalMove(s, TimerFires(s, t), t)
  {
    TimerTouches(s, t);
    assert SettledOk(TimerFires(s, t), t);
  }

  /** The state after a timeout, apart from what is reported to the breaker. */
  function MarkTimedOut(s: State, t: nat): State
    requires Known(s, t)
  {
    var a := s.admissions[t];
    s.(admissions := s.admissions[t := a.(leader := TimedOut, uncertain := a.uncertain || Mutates(a.job))],
       reconciliation := if Mutates(a.job)
                         then s.reconciliation[
                                a.job.jobId := Review("needs_review", "Worker job exceeded the gateway wait timeout")]
                         else s.reconciliation)
  }

  lemma TimeOutIsLocal(s: State, t: nat)
    requires Known(s, t) && s.admissions[t].leader.Expired? && SettledOk(s, t)
    ensures LocalMove(s, MarkTimedOut(s, t), t)
  {
    assert SettledOk(MarkTimedOut(s, t), t);
  }

  lemma ResumeIsLocal(s: State, t: nat)
    requires Known(s, t) && s.admissions[t].leader.Waiting? && SettledOk(s, t)
    requires s.admissions[t].future.Resolved? || s.admissions[t].future.Broken?
    ensures LocalMove(s, SetLeader(s, t, Answered(AnswerOf(s.admissions[t].future))), t)
  {
    assert SettledOk(SetLeader(s, t, Answered(AnswerOf(s.admissions[t].future))), t);
  }

  lemma TimerFiresKeeps(cfg: Config, s: State, t: nat)
    requires Inv(cfg, s) && Known(s, t) && s.admissions[t].leader.Waiting?
    ensures Inv(cfg, TimerFires(s, t))
  {
    TimerIsLocal(s, t);
    LeaderStepKeeps(cfg, s, TimerFires(s, t), t);
  }

  lemma MarkTimedOutKeeps(cfg: Config, s: State, t: nat)
    requires Inv(cfg, s) && Known(s, t) && s.admissions[t].leader.Expired?
    ensures Inv(cfg, MarkTimedOut(s, t))
  {
    TimeOutIsLocal(s, t);
    LeaderStepKeeps(cfg, s, MarkTimedOut(s, t), t);
  }

  lemma TimesOutIsMark(cfg: Config, s: State, t: nat, now: int)
    requires Known(s, t)
    ensures LeaderTimesOut(cfg, s, t, now) == MarkTimedOut(Report(cfg, s, Circuit.Failed(now)), t)
  {
    var s1 := LeaderTimesOut(cfg, s, t, now);
    assert s1.admissions == MarkTimedOut(s, t).admissions;
  }

  lemma TimesOutKeeps(cfg: Config, s: State, t: nat, now: int)
    requires Inv(cfg, s) && Known(s, t) && s.admissions[t].leader.Expired?
    ensures Inv(cfg, LeaderTimesOut(cfg, s, t, now))
  {
    ReportKeeps(cfg, s, Circuit.Failed(now));
    TimesOutIsMark(cfg, s, t, now);
    MarkTimedOutKeeps(cfg, Report(cfg, s, Circuit.Failed(now)), t);
  }

  lemma AnswerKeeps(cfg: Config, s: State, t: nat)
    requires Inv(cfg, s) && Known(s, t) && s.admissions[t].leader.Waiting?
    requires s.admissions[t].future.Resolved? || s.admissions[t].future.Broken?
    ensures Inv(cfg, SetLeader(s, t, Answered(AnswerOf(s.admissions[t].future))))
  {
    ResumeIsLocal(s, t);
    LeaderStepKeeps(cfg, s, SetLeader(s, t, Answered(AnswerOf(s.admissions[t].future))), t);
  }

  lemma ResumesKeeps(cfg: Config, s: State, t: nat, now: int)
    requires Inv(cfg, s) && Known(s, t) && s.admissions[t].leader.Waiting?
    requires s.admissions[t].future.Resolved? || s.admissions[t].future.Broken?
    ensures Inv(cfg, LeaderResumes(cfg, s, t, now))
  {
    ReportKeeps(cfg, s, Circuit.Succeeded);
    ReportKeeps(cfg, s, Circuit.Failed(now));
    AnswerKeeps(cfg, Reported(cfg, s, s.admissions[t].future, now), t);
  }

  // ----- Queue, release, pool and table steps -----

  lemma TakeKeepsOwnership(cfg: Config, s: State, i: nat)
    requires Ownership(cfg, s) && i < |s.tasks| && s.tasks[i].Idle? && s.queue != []
    ensures Ownership(cfg, Take(s, i))
  {
    var s', t := Take(s, i), s.queue[0];
    assert forall j | 0 <= j < |s'.queue| :: s'.queue[j] == s.queue[j + 1];
    assert QueueOwns(s');
    assert WorkersOwn(s');
    assert DrainedStay(s');
    TakeKeepsExplained(s, i);
  }

  lemma TakeKeepsExplained(s: State, i: nat)
    requires InflightExplained(s) && i < |s.tasks| && s.tasks[i].Idle? && s.queue != []
    ensures InflightExplained(Take(s, i))
  {
    var s', t := Take(s, i), s.queue[0];
    forall k | k in s'.inflight
      ensures s'.inflight[k] in s'.queue || HeldByWorker(s', s'.inflight[k]) || s'.admissions[s'.inflight[k]].drained
    {
      var u := s.inflight[k];
      if u == t {
        assert Holds(s'.tasks[i], u);
      } else if u in s.queue {
        var j :| 0 <= j < |s.queue| && s.queue[j] == u;
        assert s'.queue[j - 1] == u;
      } else if HeldByWorker(s, u) {
        var j :| 0 <= j < |s.tasks| && Holds(s.tasks[j], u);
        assert Holds(s'.tasks[j], u);
      }
    }
  }

  lemma TakeKeepsAccounting(cfg: Config, s: State, i: nat)
    requires Inv(cfg, s) && i < |s.tasks| && s.tasks[i].Idle? && s.queue != []
    ensures Accounting(cfg, Take(s, i))
  {
    var s' := Take(s, i);
    forall j | 0 <= j < |s'.queue| ensures Known(s', s'.queue[j]) && Unexecuted(s', s'.queue[j]) {
      assert Unexecuted(s, s.queue[j + 1]);
    }
    forall j | 0 <= j < |s'.tasks| ensures PhaseOk(s', s'.tasks[j]) {
      assert PhaseOk(s, s.tasks[j]) && Unexecuted(s, s.queue[0]);
    }
    forall u | 0 <= u < |s'.admissions| ensures SettledOk(s', u) { assert SettledOk(s, u); }
    forall id | id in s'.reconciliation ensures MarkedJob(s', id) { assert MarkedJob(s, id); }
  }

  /** Changing an unowned worker, or dropping all of them, and overwriting a record's text. */
  lemma SameFactsKeepAccounting(cfg: Config, s: State, s': State)
    requires Accounting(cfg, s)
    requires s' == s.(tasks := s'.tasks, untracked := s'.untracked, stopping := s'.stopping, late := s'.late,
                      inflight := s'.inflight, reconciliation := s'.reconciliation)
    requires s'.reconciliation.Keys == s.reconciliation.Keys
    requires forall i | 0 <= i < |s'.tasks| && Busy(s'.tasks[i]) :: i < |s.tasks| && s'.tasks[i] == s.tasks[i]
    ensures Accounting(cfg, s')
  {
    forall i | 0 <= i < |s'.queue|
        ensures Known(s', s'.queue[i]) && Unexecuted(s', s'.queue[i]) { assert Unexecuted(s, s.queue[i]); }
    forall i | 0 <= i < |s'.tasks| ensures PhaseOk(s', s'.tasks[i]) {
      if Busy(s'.tasks[i]) { assert PhaseOk(s, s.tasks[i]); }
    }
    forall u | 0 <= u < |s'.admissions| ensures SettledOk(s', u) { assert SettledOk(s, u); }
    forall id | id in s'.reconciliation ensures MarkedJob(s', id) { assert MarkedJob(s, id); }
  }

  lemma ReleaseKeepsExplained(s: State, i: nat)
    requires InflightExplained(s) && i < |s.tasks| && Busy(s.tasks[i]) && s.tasks[i].Releasing?
            && Known(s, s.tasks[i].ticket)
    requires forall j | 0 <= j < |s.tasks| && j != i :: !Holds(s.tasks[j], s.tasks[i].ticket)
    ensures InflightExplained(Release(s, i))
  {
    var s', t := Release(s, i), s.tasks[i].ticket;
    forall k | k in s'.inflight
      ensures s'.inflight[k] in s'.queue || HeldByWorker(s', s'.inflight[k]) || s'.admissions[s'.inflight[k]].drained
    {
      assert s.inflight[k] != t;
      if HeldByWorker(s, s.inflight[k]) {
        var j :| 0 <= j < |s.tasks| && Holds(s.tasks[j], s.inflight[k]);
        assert Holds(s'.tasks[j], s.inflight[k]);
      }
    }
  }

  lemma ReleaseKeepsOwners(cfg: Config, s: State, i: nat)
    requires Ownership(cfg, s) && i < |s.tasks| && s.tasks[i].Releasing? && Known(s, s.tasks[i].ticket)
    ensures QueueOwns(Release(s, i)) && DrainedStay(Release(s, i)) && Bounded(cfg, Release(s, i))
  {
    var s', t := Release(s, i), s.tasks[i].ticket;
    forall j | 0 <= j < |s.queue| ensures KeyOf(s, s.queue[j]) != KeyOf(s, t) {}
    forall u | 0 <= u < |s.admissions| && s.admissions[u].drained ensures KeyOf(s, u) != KeyOf(s, t) {
      assert !Holds(s.tasks[i], u);
    }
  }

  lemma ReleaseKeepsWorkers(s: State, i: nat)
    requires WorkersOwn(s) && i < |s.tasks| && s.tasks[i].Releasing? && Known(s, s.tasks[i].ticket)
    ensures WorkersOwn(Release(s, i))
  {
    var s', t := Release(s, i), s.tasks[i].ticket;
    forall j | 0 <= j < |s'.tasks| && Busy(s'.tasks[j])
      ensures Known(s', s'.tasks[j].ticket) && KeyOf(s', s'.tasks[j].ticket) in s'.inflight
    {
      assert j != i && s'.tasks[j] == s.tasks[j];
    }
  }

  lemma ReleaseKeeps(cfg: Config, s: State, i: nat)
    requires Inv(cfg, s) && i < |s.tasks| && s.tasks[i].Releasing? && Known(s, s.tasks[i].ticket)
    ensures Inv(cfg, Release(s, i))
  {
    HolderIsUnique(cfg, s, i);
    ReleaseKeepsExplained(s, i);
    ReleaseKeepsOwners(cfg, s, i);
    ReleaseKeepsWorkers(s, i);
    SameFactsKeepAccounting(cfg, s, Release(s, i));
  }

  lemma DieKeeps(cfg: Config, s: State, i: nat)
    requires Inv(cfg, s) && i < |s.tasks| && s.tasks[i].Idle?
    ensures Inv(cfg, SetWorker(s, i, Dead))
  {
    SameOwnersKeepOwnership(cfg, s, SetWorker(s, i, Dead));
    SameFactsKeepAccounting(cfg, s, SetWorker(s, i, Dead));
  }

  /** Starting a pool, or clearing one: the busy workers stay. */
  lemma PoolKeeps(cfg: Config, s: State, s': State)
    requires Inv(cfg, s)
    requires s' == s.(tasks := s'.tasks, untracked := s'.untracked, stopping := s'.stopping, late := s'.late)
    requires forall i | 0 <= i < |s.tasks| && Busy(s.tasks[i]) :: i < |s'.tasks| && s'.tasks[i] == s.tasks[i]
    requires forall i | 0 <= i < |s'.tasks| && Busy(s'.tasks[i]) :: i < |s.tasks| && s'.tasks[i] == s.tasks[i]
    requires Bounded(cfg, s')
    ensures Inv(cfg, s')
  {
    forall t | HeldByWorker(s, t) ensures HeldByWorker(s', t) {
      var i :| 0 <= i < |s.tasks| && Holds(s.tasks[i], t);
      assert Holds(s'.tasks[i], t);
    }
    SameFactsKeepAccounting(cfg, s, s');
  }

  lemma RewordKeeps(cfg: Config, s: State, table: map<string, Review>)
    requires Inv(cfg, s) && table.Keys == s.reconciliation.Keys
    ensures Inv(cfg, s.(reconciliation := table))
  {
    var s' := s.(reconciliation := table);
    assert SameOwners(s, s');
    SameOwnersKeepOwnership(cfg, s, s');
    SameFactsKeepAccounting(cfg, s, s');
  }

  lemma ReconcileKeeps(cfg: Config, s: State, id: string, outcome: Option<string>)
    requires Inv(cfg, s)
    ensures Inv(cfg, Reconcile(s, id, outcome))
  {
    hide Inv;
    if id in s.reconciliation && outcome.Some? {
      RewordKeeps(cfg, s, s.reconciliation[id := Confirmed(outcome.value)]);
    }
  }

  // ----- stop -----

  /** What `stop` does to one admission. */
  lemma StopMove(s: State, t: nat)
    requires Known(s, t)
    ensures var a, a' := s.admissions[t], StopBegins(s).admissions[t];
            && a'.job == a.job && a'.leader == a.leader && a'.unserialisable == a.unserialisable
            && (a'.drained <==> a.drained || t in s.queue)
            && (a'.future == a.future || (a.future.Pending? && a'.future.Broken?))
            && (a'.future.Broken? && !a.future.Broken? ==>
                  a'.future.error == if Mutates(a.job) then STOPPED_MUTATION else STOPPED_READ)
            && (a.uncertain ==> a'.uncertain)
            && (a'.uncertain && !a.uncertain ==> a.future.Pending? && a'.future.Broken? && Mutates(a.job))
            && (a'.future.Broken? && !a.future.Broken? && Mutates(a.job) ==>
                  a'.uncertain && a.job.jobId in StoppedIds(s))
            && (t in s.queue || t in s.inflight.Values ==> !a'.future.Pending?)
  {
  }

  lemma StopKeepsOwnership(cfg: Config, s: State)
    requires Ownership(cfg, s) && QueueUnexecuted(s)
    ensures Ownership(cfg, StopBegins(s))
  {
    var s' := StopBegins(s);
    forall t | 0 <= t < |s.admissions| ensures KeyOf(s', t) == KeyOf(s, t) { StopMove(s, t); }
    forall k | k in s'.inflight
      ensures Known(s', s'.inflight[k]) && KeyOf(s', s'.inflight[k]) == k
      ensures HeldByWorker(s', s'.inflight[k]) || s'.admissions[s'.inflight[k]].drained
    {
      StopMove(s, s.inflight[k]);
      assert HeldByWorker(s, s.inflight[k]) ==> HeldByWorker(s', s.inflight[k]);
    }
    assert WorkersOwn(s');
    StopKeepsDrained(cfg, s);
  }

  lemma StopKeepsDrained(cfg: Config, s: State)
    requires Ownership(cfg, s) && QueueUnexecuted(s)
    ensures DrainedStay(StopBegins(s))
  {
    var s' := StopBegins(s);
    forall t | 0 <= t < |s'.admissions| && s'.admissions[t].drained
      ensures KeyOf(s', t) in s'.inflight && s'.inflight[KeyOf(s', t)] == t
      ensures KeyOf(s', t) !in s'.results && !s'.admissions[t].future.Pending? && !s'.admissions[t].future.Resolved?
      ensures forall i | 0 <= i < |s'.tasks| :: !Holds(s'.tasks[i], t)
    {
      StopMove(s, t);
      if t in s.queue {
        var i :| 0 <= i < |s.queue| && s.queue[i] == t;
        assert Unexecuted(s, s.queue[i]);
      }
    }
  }

  lemma StopKeepsSettled(s: State, t: nat)
    requires Known(s, t) && SettledOk(s, t)
    ensures SettledOk(StopBegins(s), t)
  {
    StopMove(s, t);
  }

  lemma StopKeepsPhase(s: State, i: nat)
    requires i < |s.tasks| && PhaseOk(s, s.tasks[i])
    ensures PhaseOk(StopBegins(s), s.tasks[i])
  {
    if s.tasks[i].Executing? || s.tasks[i].Executed? {
      StopMove(s, s.tasks[i].ticket);
    }
  }

  lemma StopKeepsRecords(s: State)
    requires RecordsOwned(s)
    ensures RecordsOwned(StopBegins(s))
  {
    var s' := StopBegins(s);
    forall id | id in s'.reconciliation ensures MarkedJob(s', id) {
      if id in StoppedIds(s) {
        var t :| 0 <= t < |s.admissions| && Unfinished(s, t) && Mutates(s.admissions[t].job)
            && s.admissions[t].job.jobId == id;
        assert s'.admissions[t].uncertain && s'.admissions[t].job.jobId == id;
      } else {
        assert MarkedJob(s, id);
        var t :| 0 <= t < |s.admissions| && s.admissions[t].uncertain && s.admissions[t].job.jobId == id;
        StopMove(s, t);
      }
    }
  }

  lemma StopKeepsAccounting(cfg: Config, s: State)
    requires Accounting(cfg, s)
    ensures Accounting(cfg, StopBegins(s))
  {
    var s' := StopBegins(s);
    forall t | 0 <= t < |s'.admissions| ensures SettledOk(s', t) && Authentic(cfg, s'.admissions[t].job) {
      StopKeepsSettled(s, t);
      StopMove(s, t);
    }
    forall i | 0 <= i < |s'.tasks| ensures PhaseOk(s', s'.tasks[i]) {
      StopKeepsPhase(s, i);
    }
    StopKeepsRecords(s);
  }

  // ----- The invariant in every reachable state -----

  lemma StepKeeps(cfg: Config, s: State, step: Step)
    requires Inv(cfg, s)
    ensures Inv(cfg, Apply(cfg, s, step))
  {
    hide Inv, Submit, Take, ExecutionSucceeds, ExecutionFails, SerialisationFails, SetWorker, Publish, Release,
      TimerFires, LeaderTimesOut, LeaderResumes, Reconcile, Start, StopBegins, StopEnds, LateStopEnds;
    if Enabled(s, step) {
      match step
      case DoSubmit(job, now) => SubmitKeeps(cfg, s, job, now);
      case DoTake(i) => TakeKeeps(cfg, s, i);
      case DoSucceed(i, output) => SucceedKeeps(cfg, s, i, output);
      case DoFail(i, cause, detail) => FailKeeps(cfg, s, i, cause, detail);
      case DoFailToSerialise(i, cause) => FailToSerialiseKeeps(cfg, s, i, cause);
      case DoCancel(i) => CancelKeeps(cfg, s, i);
      case DoPublish(i) => PublishKeeps(cfg, s, i);
      case DoRelease(i) => ReleaseKeeps(cfg, s, i);
      case DoDie(i) => DieKeeps(cfg, s, i);
      case DoFireTimer(t) => TimerFiresKeeps(cfg, s, t);
      case DoTimeOut(t, now) => TimesOutKeeps(cfg, s, t, now);
      case DoResume(t, now) => ResumesKeeps(cfg, s, t, now);
      case DoReconcile(id, outcome) => ReconcileKeeps(cfg, s, id, outcome);
      case DoStart => StartKeeps(cfg, s);
      case DoStopBegin => StopKeeps(cfg, s);
      case DoStopEnd => StopEndKeeps(cfg, s);
      case DoLateStopEnd => LateStopEndKeeps(cfg, s);
    }
  }

  lemma TakeKeeps(cfg: Config, s: State, i: nat)
    requires Inv(cfg, s) && Enabled(s, DoTake(i))
    ensures Inv(cfg, Take(s, i))
  {
    TakeKeepsOwnership(cfg, s, i);
    TakeKeepsAccounting(cfg, s, i);
    hide Ownership, Accounting, Take;
  }

  lemma StopKeeps(cfg: Config, s: State)
    requires Inv(cfg, s)
    ensures Inv(cfg, StopBegins(s))
  {
    StopKeepsOwnership(cfg, s);
    StopKeepsAccounting(cfg, s);
    hide Ownership, Accounting, StopBegins;
  }

  lemma StopEndKeeps(cfg: Config, s: State)
    requires Inv(cfg, s) && Enabled(s, DoStopEnd)
    ensures Inv(cfg, StopEnds(s))
  {
    PoolKeeps(cfg, s, StopEnds(s));
  }

  lemma LateStopEndKeeps(cfg: Config, s: State)
    requires Inv(cfg, s) && Enabled(s, DoLateStopEnd)
    ensures Inv(cfg, LateStopEnds(s))
  {
    PoolKeeps(cfg, s, LateStopEnds(s));
  }

  lemma StartKeeps(cfg: Config, s: State)
    requires Inv(cfg, s)
    ensures Inv(cfg, Start(cfg, s))
  {
    if NoPool(s) {
      PoolKeeps(cfg, s, Start(cfg, s));
    }
  }

  lemma InitialOk(cfg: Config)
    ensures Inv(cfg, INITIAL)
  {
  }

  lemma {:induction false} RunKeeps(cfg: Config, s: State, steps: seq<Step>)
    requires Inv(cfg, s)
    ensures Inv(cfg, Run(cfg, s, steps))
  {
    hide Apply, Inv;
    if steps != [] {
      RunKeeps(cfg, s, steps[..|steps| - 1]);
      StepKeeps(cfg, Run(cfg, s, steps[..|steps| - 1]), steps[|steps| - 1]);
    }
  }

  /** Every interleaving from the initial state satisfies the invariant. */
  lemma ReachableOk(cfg: Config, steps: seq<Step>)
    ensures Inv(cfg, Run(cfg, INITIAL, steps))
  {
    InitialOk(cfg);
    RunKeeps(cfg, INITIAL, steps);
  }
}
