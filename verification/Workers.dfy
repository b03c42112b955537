/** gateway/workers/service.py as a protocol: the atomic sections that submitters, worker tasks,
    timers, `start` and `stop` take over the service's shared fields, in any interleaving.

    The service lock is never held across a suspension point, so every locked section is one
    step.  A (job, future) pair of the source is named by its ticket: the position of the
    job among the admitted ones. */
module Workers {
  import opened Common
  import Circuit

  datatype Job = Job(jobId: string, callId: string, tenantId: string, toolName: string,
                     risk: Risk, arguments: Args, key: string, authToken: string)

  /** `WorkerResult`: a failed result carries the exception its error code is taken from. */
  datatype WorkerResult = Succeeded(jobId: string, output: Args) | Failed(jobId: string, cause: Exn)

  datatype Future = Pending | Resolved(result: WorkerResult) | Broken(error: GatewayError) | Cancelled

  /** The submitter that enqueued the job: awaiting the future, woken by its timer, or done. */
  datatype Leader = Waiting | Expired | TimedOut | Answered(answer: Result<WorkerResult, Exn>)

  /** An admitted job.  The last three fields record history: whether the job was marked for
      review, whether its output could not be serialised, and whether `stop` drained it from
      the queue before any worker took it. */
  datatype Admission = Admission(job: Job, future: Future, leader: Leader,
                                 uncertain: bool, unserialisable: bool, drained: bool)

  datatype Worker =
    | Idle
    | Executing(ticket: nat)
    | Executed(ticket: nat, result: WorkerResult)
    | Releasing(ticket: nat, cancelled: bool)
    | Dead

  datatype Review = Review(status: string, detail: string)

  datatype Config = Config(sign: Job -> string, queueSize: int, maxConcurrency: int, limits: Circuit.Limits)

  /** `tasks` are all worker tasks that may still run; those the service tracks are the ones from
      position `untracked` on.  `stopping` counts the `stop` calls that wait for the tracked
      tasks, and `late` those whose tasks are gone but which have not cleared the list yet. */
  datatype State = State(
    tasks: seq<Worker>,
    untracked: nat,
    stopping: nat,
    late: nat,
    queue: seq<nat>,
    inflight: map<string, nat>,
    results: map<string, WorkerResult>,
    reconciliation: map<string, Review>,
    breaker: Circuit.Breaker,
    breakerLog: seq<Circuit.Event>,
    admissions: seq<Admission>)

  const INITIAL := State([], 0, 0, 0, [], map[], map[], map[], Circuit.CLOSED, [], [])

  function PoolSize(cfg: Config): nat {
    Max(1, cfg.maxConcurrency)
  }

  predicate Mutates(job: Job) {
    !job.risk.ReadOnly?
  }

  predicate Busy(w: Worker) {
    w.Executing? || w.Executed? || w.Releasing?
  }

  predicate Holds(w: Worker, ticket: nat) {
    Busy(w) && w.ticket == ticket
  }

  // ----- Building blocks of the steps -----

  function Report(cfg: Config, s: State, e: Circuit.Event): State {
    s.(breaker := Circuit.React(cfg.limits, s.breaker, e), breakerLog := s.breakerLog + [e])
  }

  function MarkUncertain(s: State, ticket: nat, detail: string): State
    requires ticket < |s.admissions|
  {
    var a := s.admissions[ticket];
    s.(reconciliation := s.reconciliation[a.job.jobId := Review("needs_review", detail)],
       admissions := s.admissions[ticket := a.(uncertain := true)])
  }

  function SetFuture(s: State, ticket: nat, f: Future): State
    requires ticket < |s.admissions|
  {
    s.(admissions := s.admissions[ticket := s.admissions[ticket].(future := f)])
  }

  function SetLeader(s: State, ticket: nat, l: Leader): State
    requires ticket < |s.admissions|
  {
    s.(admissions := s.admissions[ticket := s.admissions[ticket].(leader := l)])
  }

  function SetWorker(s: State, i: nat, w: Worker): State
    requires i < |s.tasks|
  {
    s.(tasks := s.tasks[i := w])
  }

  /** `not self._tasks`. */
  predicate NoPool(s: State) {
    |s.tasks| <= s.untracked
  }

  // ----- submit -----

  datatype Reply = Rejected(error: Exn) | FromCache(result: WorkerResult) | Joined(ticket: nat) | Admitted(ticket: nat)

  predicate Authentic(cfg: Config, job: Job) {
    job.authToken == cfg.sign(job.(authToken := ""))
  }

  predicate QueueFull(cfg: Config, s: State) {
    0 < cfg.queueSize <= |s.queue|
  }

  /** `submit` up to its first suspension. */
  function Submit(cfg: Config, s: State, job: Job, now: int): (State, Reply) {
    if NoPool(s) then
      (s, Rejected(Raised(ToolExecutionFailed, "Execution worker service is not running")))
    else if Circuit.IsOpen(cfg.limits, s.breaker, now) then
      (Report(cfg, s, Circuit.Asked(now)), Rejected(Raised(ToolExecutionFailed, "Execution worker circuit is open")))
    else
      var s := Report(cfg, s, Circuit.Asked(now));
      if !Authentic(cfg, job) then
        (s, Rejected(Raised(ToolExecutionFailed, "Worker authentication failed")))
      else if job.key in s.results then
        (s, FromCache(s.results[job.key]))
      else if job.key in s.inflight then
        (s, Joined(s.inflight[job.key]))
      else if QueueFull(cfg, s) then
        (Report(cfg, s, Circuit.Failed(now)), Rejected(Raised(ToolExecutionFailed, "Execution worker queue is full")))
      else
        var ticket := |s.admissions|;
        (s.(admissions := s.admissions + [Admission(job, Pending, Waiting, false, false, false)],
            inflight := s.inflight[job.key := ticket],
            queue := s.queue + [ticket]),
         Admitted(ticket))
  }

  /** What the leader raises for a failed result. */
  function LeaderError(cause: Exn): Exn {
    match cause
    case Gateway(e) =>
      if e.code.NeedsReview? then Raised(NeedsReview, e.message) else Raised(ToolExecutionFailed, e.message)
    case Unexpected(detail) => Raised(ToolExecutionFailed, detail)
  }

  /** What the leader returns or raises once the future is done. */
  function AnswerOf(f: Future): Result<WorkerResult, Exn>
    requires f.Resolved? || f.Broken?
  {
    match f
    case Resolved(r) => if r.Succeeded? then Ok(r) else Err(LeaderError(r.cause))
    case Broken(e) => Err(Gateway(e))
  }

  /** What the leader reports to the breaker: nothing when its future was broken by `stop`. */
  function Reported(cfg: Config, s: State, f: Future, now: int): State {
    match f
    case Resolved(r) => Report(cfg, s, if r.Succeeded? then Circuit.Succeeded else Circuit.Failed(now))
    case _ => s
  }

  /** The leader resumes with its future resolved or broken. */
  function LeaderResumes(cfg: Config, s: State, ticket: nat, now: int): State
    requires ticket < |s.admissions| && (s.admissions[ticket].future.Resolved? || s.admissions[ticket].future.Broken?)
  {
    var f := s.admissions[ticket].future;
    SetLeader(Reported(cfg, s, f, now), ticket, Answered(AnswerOf(f)))
  }

  /** The leader's timer fires: the awaited future is cancelled unless it is already done. */
  function TimerFires(s: State, ticket: nat): State
    requires ticket < |s.admissions|
  {
    var s := SetLeader(s, ticket, Expired);
    if s.admissions[ticket].future.Pending? then SetFuture(s, ticket, Cancelled) else s
  }

  /** What a leader raises whose timer fired first. */
  function TimeoutError(job: Job): Exn {
    if Mutates(job) then Raised(NeedsReview, "Mutation outcome is uncertain; reconciliation required")
    else Raised(ToolExecutionFailed, "Execution worker timed out")
  }

  /** The leader resumes from its timer. */
  function LeaderTimesOut(cfg: Config, s: State, ticket: nat, now: int): State
    requires ticket < |s.admissions|
  {
    var s := if Mutates(s.admissions[ticket].job)
             then MarkUncertain(s, ticket, "Worker job exceeded the gateway wait timeout") else s;
    SetLeader(Report(cfg, s, Circuit.Failed(now)), ticket, TimedOut)
  }

  // ----- Worker tasks -----

  /** `queue.get` hands the oldest ticket to an idle worker. */
  function Take(s: State, i: nat): State
    requires i < |s.tasks| && s.queue != []
  {
    SetWorker(s, i, Executing(s.queue[0])).(queue := s.queue[1..])
  }

  function JobOf(s: State, i: nat): Job
    requires i < |s.tasks| && Busy(s.tasks[i]) && s.tasks[i].ticket < |s.admissions|
  {
    s.admissions[s.tasks[i].ticket].job
  }

  /** The handler returned and its output serialised: the result is stored under the key. */
  function ExecutionSucceeds(s: State, i: nat, output: Args): State
    requires i < |s.tasks| && Busy(s.tasks[i]) && s.tasks[i].ticket < |s.admissions|
  {
    var job := JobOf(s, i);
    var result := Succeeded(job.jobId, output);
    SetWorker(s, i, Executed(s.tasks[i].ticket, result)).(results := s.results[job.key := result])
  }

  /** Validation or the handler raised: a mutation is marked for review. */
  function ExecutionFails(s: State, i: nat, cause: Exn, detail: string): State
    requires i < |s.tasks| && Busy(s.tasks[i]) && s.tasks[i].ticket < |s.admissions|
  {
    var t := s.tasks[i].ticket;
    var job := JobOf(s, i);
    SetWorker(if Mutates(job) then MarkUncertain(s, t, detail) else s, i, Executed(t, Failed(job.jobId, cause)))
  }

  /** The handler returned, but serialising its output raised: that happens after the block
      that marks mutations, so nothing is marked. */
  function SerialisationFails(s: State, i: nat, cause: Exn): State
    requires i < |s.tasks| && Busy(s.tasks[i]) && s.tasks[i].ticket < |s.admissions|
  {
    var t := s.tasks[i].ticket;
    SetWorker(s, i, Executed(t, Failed(JobOf(s, i).jobId, cause)))
      .(admissions := s.admissions[t := s.admissions[t].(unserialisable := true)])
  }

  function Publish(s: State, i: nat): State
    requires i < |s.tasks| && s.tasks[i].Executed? && s.tasks[i].ticket < |s.admissions|
  {
    var t := s.tasks[i].ticket;
    SetWorker(if s.admissions[t].future.Pending? then SetFuture(s, t, Resolved(s.tasks[i].result)) else s,
              i, Releasing(t, false))
  }

  /** The `finally` block: the key leaves the in-flight map whatever the outcome. */
  function Release(s: State, i: nat): State
    requires i < |s.tasks| && s.tasks[i].Releasing? && s.tasks[i].ticket < |s.admissions|
  {
    SetWorker(s, i, if s.tasks[i].cancelled then Dead else Idle)
      .(inflight := s.inflight - {JobOf(s, i).key})
  }

  // ----- start, stop, reconcile -----

  const STOPPED_DETAIL := "Worker service stopped before completion"
  const STOPPED_MUTATION := GatewayError(NeedsReview, "Worker stopped; mutation outcome requires review", [])
  const STOPPED_READ := GatewayError(ToolExecutionFailed, "Worker stopped before read-only job completion", [])

  function Start(cfg: Config, s: State): State {
    if NoPool(s) then s.(tasks := s.tasks + seq(PoolSize(cfg), _ => Idle)) else s
  }

  /** `stop` settles a ticket when it is in flight or queued and its future is not done. */
  predicate Unfinished(s: State, ticket: nat)
    requires ticket < |s.admissions|
  {
    (ticket in s.inflight.Values || ticket in s.queue) && s.admissions[ticket].future.Pending?
  }

  /** What `stop` does to an unfinished job. */
  function Settle(a: Admission): Admission {
    if !a.future.Pending? then a
    else if Mutates(a.job) then a.(future := Broken(STOPPED_MUTATION), uncertain := true)
    else a.(future := Broken(STOPPED_READ))
  }

  function StopOne(s: State, ticket: nat): Admission
    requires ticket < |s.admissions|
  {
    var a := s.admissions[ticket];
    (if Unfinished(s, ticket) then Settle(a) else a).(drained := a.drained || ticket in s.queue)
  }

  function StoppedIds(s: State): set<string> {
    set t | 0 <= t < |s.admissions| && Unfinished(s, t) && Mutates(s.admissions[t].job) :: s.admissions[t].job.jobId
  }

  /** The locked section of `stop`, with the cancellation requests that follow it.  Without tasks
      to wait for the call returns at once. */
  function StopBegins(s: State): State {
    s.(queue := [],
       stopping := if NoPool(s) then s.stopping else s.stopping + 1,
       reconciliation := s.reconciliation + map id | id in StoppedIds(s) :: Review("needs_review", STOPPED_DETAIL),
       admissions := seq(|s.admissions|, t requires 0 <= t < |s.admissions| => StopOne(s, t)))
  }

  /** The first of the waiting `stop` calls resumes, once the tracked tasks have ended, and clears
      them; the others are late. */
  function StopEnds(s: State): State
    requires s.stopping > 0 && s.untracked <= |s.tasks|
  {
    s.(tasks := s.tasks[..s.untracked], late := s.late + s.stopping - 1, stopping := 0)
  }

  /** A late `stop` call resumes and clears whatever pool there is by now; the calls that wait for
      that pool will be late too. */
  function LateStopEnds(s: State): State
    requires s.late > 0
  {
    s.(untracked := |s.tasks|, late := s.late - 1 + s.stopping, stopping := 0)
  }

  function Confirmed(outcome: string): Review {
    Review(outcome, "Outcome confirmed by an operator or tool-specific reconciler")
  }

  function Reconcile(s: State, jobId: string, outcome: Option<string>): State {
    if jobId in s.reconciliation && outcome.Some?
    then s.(reconciliation := s.reconciliation[jobId := Confirmed(outcome.value)])
    else s
  }

  // ----- The step relation -----

  datatype Step =
    | DoSubmit(job: Job, now: int)
    | DoTake(worker: nat)
    | DoSucceed(worker: nat, output: Args)
    | DoFail(worker: nat, cause: Exn, detail: string)
    | DoFailToSerialise(worker: nat, cause: Exn)
    | DoCancel(worker: nat)
    | DoPublish(worker: nat)
    | DoRelease(worker: nat)
    | DoDie(worker: nat)
    | DoFireTimer(ticket: nat)
    | DoTimeOut(ticket: nat, now: int)
    | DoResume(ticket: nat, now: int)
    | DoReconcile(jobId: string, outcome: Option<string>)
    | DoStart
    | DoStopBegin
    | DoStopEnd
    | DoLateStopEnd

  predicate ExecutingAt(s: State, i: nat) {
    i < |s.tasks| && s.tasks[i].Executing? && s.tasks[i].ticket < |s.admissions|
  }

  predicate Enabled(s: State, step: Step) {
    match step
    case DoSubmit(_, _) => true
    case DoTake(i) => i < |s.tasks| && s.tasks[i].Idle? && s.queue != []
    case DoSucceed(i, _) => ExecutingAt(s, i)
    case DoFail(i, _, _) => ExecutingAt(s, i)
    case DoFailToSerialise(i, _) => ExecutingAt(s, i)
    case DoCancel(i) => ExecutingAt(s, i)
    case DoPublish(i) => i < |s.tasks| && s.tasks[i].Executed? && s.tasks[i].ticket < |s.admissions|
    case DoRelease(i) => i < |s.tasks| && s.tasks[i].Releasing? && s.tasks[i].ticket < |s.admissions|
    case DoDie(i) => i < |s.tasks| && s.tasks[i].Idle? && (s.stopping > 0 || i < s.untracked)
    case DoFireTimer(t) => t < |s.admissions| && s.admissions[t].leader.Waiting?
    case DoTimeOut(t, _) => t < |s.admissions| && s.admissions[t].leader.Expired?
    case DoResume(t, _) =>
      && t < |s.admissions| && s.admissions[t].leader.Waiting?
      && (s.admissions[t].future.Resolved? || s.admissions[t].future.Broken?)
    case DoReconcile(_, _) => true
    case DoStart => true
    case DoStopBegin => true
    case DoStopEnd =>
      && s.stopping > 0 && s.untracked <= |s.tasks|
      && forall i | s.untracked <= i < |s.tasks| :: s.tasks[i].Dead?
    case DoLateStopEnd => s.late > 0
  }

  /** One step of the protocol; a step that is not enabled changes nothing. */
  function Apply(cfg: Config, s: State, step: Step): State {
    if !Enabled(s, step) then s
    else match step
      case DoSubmit(job, now) => Submit(cfg, s, job, now).0
      case DoTake(i) => Take(s, i)
      case DoSucceed(i, output) => ExecutionSucceeds(s, i, output)
      case DoFail(i, cause, detail) => ExecutionFails(s, i, cause, detail)
      case DoFailToSerialise(i, cause) => SerialisationFails(s, i, cause)
      case DoCancel(i) => SetWorker(s, i, Releasing(s.tasks[i].ticket, true))
      case DoPublish(i) => Publish(s, i)
      case DoRelease(i) => Release(s, i)
      case DoDie(i) => SetWorker(s, i, Dead)
      case DoFireTimer(t) => TimerFires(s, t)
      case DoTimeOut(t, now) => LeaderTimesOut(cfg, s, t, now)
      case DoResume(t, now) => LeaderResumes(cfg, s, t, now)
      case DoReconcile(id, outcome) => Reconcile(s, id, outcome)
      case DoStart => Start(cfg, s)
      case DoStopBegin => StopBegins(s)
      case DoStopEnd => StopEnds(s)
      case DoLateStopEnd => LateStopEnds(s)
  }

  function Run(cfg: Config, s: State, steps: seq<Step>): State {
    if steps == [] then s
    else Apply(cfg, Run(cfg, s, steps[..|steps| - 1]), steps[|steps| - 1])
  }
}
