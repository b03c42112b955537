# The gateway's guarded execution pipeline, in Dafny

This project models the part of the MCP gateway that stands between a client's tool call and the
handler that carries it out, and proves what that part guarantees over whole runs.

| modules | what they model |
|---|---|
| `Circuit`, `Workers`, `WorkerInvariant`, `WorkerSafety`, `WorkerReports`, `WorkerService` | the execution worker: submitters, worker tasks, timers, `start` and `stop` interleaving over the queue, the in-flight map, the result cache, the reconciliation table and the circuit breaker |
| `Proxy` | the gateway's handlers when tools run on that worker: keys, and what failures look like from the gateway |
| `Repair` | diagnosis, backoff and the bounded repair loop |
| `Policy`, `Approval` | the Rego decision rules; approval requests, decisions and the bounded wait |
| `StateStore`, `RedisStore` | the in-memory call store, and the optimistic Redis store that refines it |
| `Audit` | the hash-chained audit file, its writer, its resume path and its verifier |
| `ControlPlane` | durable call summaries, attempt rows and approvals |
| `Orchestrator`, `ToolCall` | `execute_tool_call`: as functions of everything the gateway does not decide, and step by step over its shared variables |
| `Mediation`, `Lifecycle`, `Answers` | what those functions guarantee: mediation, approval fidelity, the lifecycle language, the attempt log, and what a call answers for every answer it gets |
| `Report` | the Markdown splice of the evaluation report |

Code that updates state is a class whose methods are proved against a function of the old state
(`WorkerService.WorkerService` against the step relation `Workers`, `ToolCall.Pipeline`
against `Orchestrator`, the stores, queues, breaker and audit logger against their specification
functions); the theorems are lemmas about those functions.

## How to read the results

The main theorems are about every run, every interleaving, and every behaviour of the policy, the
model, the handlers, the operators and the clocks. Where the code does less than its
documentation says, the code is modelled as it is; the exact condition, and an input or a run that
fails, are lemmas:

* **Policy recheck of repaired arguments** (the repository's README.md, lines 113-114, says before
  every repaired attempt). `latest_attempt` advances only once the EXECUTING write has succeeded.
  If the store loses the first EXECUTING write and accepts a later one, the retry still counts as
  attempt 1: it skips the recheck, and if the original request was approved it runs the repaired
  one under that approval. `Mediation.MediationGuaranteed` and `Mediation.LostWriteSkipsReview`
  show that, among the stores on which a call can reach execution, mediation is guaranteed on
  exactly those that do not do this; `Mediation.ApprovalFidelity` draws the same line for approved
  arguments, and `Mediation.UserInvokesOnlyReads` with `Mediation.LostWriteRunsDestructive` for
  destructive requests of a caller that holds only the role `user`.
* **Reconciliation of mutations.** The worker serialises a handler's output outside the block that
  marks mutations. `WorkerSafety.MutationsAccounted` holds for exactly the other admissions;
  `WorkerSafety.SerialisationLosesMutation` is a run that loses one.
* **Restarting the worker.** A queued job that `stop` drains leaves its key in the in-flight map
  for ever (`WorkerSafety.InflightIsHeldOrDrained`, `WorkerSafety.DrainedKeyIsNeverAdmitted`);
  `WorkerSafety.RestartLeavesStaleKey` is such a run. Of two overlapping `stop` calls the second
  can clear a pool that was started after the first returned; its workers run on untracked. The
  live workers stay within the configured number exactly as long as that does not happen
  (`WorkerSafety.PoolIsTrackedExactly`), as when no two `stop` calls overlap
  (`WorkerSafety.SeparateStopsKeepPool`); `WorkerSafety.OverlappingStopsDoublePool` is a run that
  ends with twice as many.
* **needs_review** (the repository's README.md, lines 97-98 and 114-115). An *idempotent* mutation
  whose retry does not fit the total time surfaces as the plain timeout
  (`Repair.ReviewExactlyWhenGivenUp`, and `Repair.IdempotentTimeoutCanSurface` for the input). On
  the execution worker, timeouts and crashes reach the gateway as plain tool failures, and a call
  without a model is never retried (`Proxy.FailuresAreFlattened`, `Proxy.JoinersAreToldLess`,
  `Proxy.ProxiedCallsAreNotRetried`); `Proxy.TimeoutIsToldAsFailure` is a run in which a mutation's
  sandbox timeout is told as a plain failure.
* **Repaired arguments on the execution worker.** All attempts of a call share one key, so a
  submission is answered with an earlier output exactly when an execution for its key has completed
  (`WorkerSafety.CachedExactlyWhenCompleted`, `WorkerSafety.CompletedKeyAnswersForever`); `Proxy.RepairedArgumentsAreNotExecuted` is a run in
  which a retry is answered with the output for the original arguments.
* **One audit record per call** (the repository's README.md, line 100). An output that does not
  serialise is audited twice, and FAILED follows SUCCEEDED: `Lifecycle.LifecycleLanguage` has the
  condition, `Lifecycle.FailedFollowsSucceeded` and `ToolCall.UnserialisableIsAuditedTwice` the
  call. Without an audit logger the durable attempt rows keep the history of admission, because the
  upsert lives in `write_audit` (`ToolCall.Pipeline.Execute`).
* **The audit chain.** A second logger on the file, or a logger that appends again after an append
  that raised with its line already written, breaks the chain (`Audit.AppendKeepsChain`,
  `Audit.SecondWriterBreaksChain`, `Audit.RestartsKeepChain`).
* **Attempts that never finish.** An attempt that fails with an exception other than the
  gateway's own, and is followed by another, stays open (`Lifecycle.AttemptLogAgrees`);
  `Lifecycle.AbandonedAttemptStaysOpen` is such a call.
* **Attempt numbers that repeat.** A retry that starts attempt 2 but loses its EXECUTING write
  starts the same number again, and from then on the constraint on attempt numbers rolls back every
  durable upsert: `Lifecycle.NumbersRepeatExactly` has the condition, on every store,
  `Lifecycle.AttemptNumberRepeats` such a call, and `ToolCall.RepeatedNumberFreezesRows` the effect.
* **Resolving an approval twice.** `resolve_approval` reads the row without a lock, so that two
  overlapping transactions can both be told `True` and the second overwrites the first. The first
  resolution stands exactly when no two have read the approval as pending at the same time
  (`ControlPlane.FirstStandsExactlyWhenDisjoint`); `ControlPlane.BothResolve` is the run that
  breaks it.

## Assumptions

* The worker's lock is never held across a suspension, so a locked section is one step. Submitters
  and audit appends are not cancelled from outside. A future, a job and its admission are named by
  one ticket.
* Validating the dump of a validated request yields that request (`Orchestrator.RoundTrips`), where
  a theorem says so. Approval ids are unique where a theorem says so (`Mediation.IdsUnique`).
* The record hash has no collisions and never equals the genesis value (`Audit.Collisionless`),
  where a theorem says so. Serialising a record and reading it back is the identity.
* The clock is monotone only in `RedisStore`; elsewhere clock readings are arbitrary. In `Repair` a
  sleep of `d` advances the clock by `d`, and executors and repairers take arbitrary times.
* A failing state-store or control-plane operation raises and changes nothing. The lifecycle and
  attempt-log theorems are for a store that does not fail. `Mediation.UserNeverMutates`,
  `Mediation.NoGrantNoInvocation`, `Mediation.OneInvocationPerNumber` and
  `Mediation.MutationsInvokedOnce` hold whatever the store does; `Mediation.MediationGuaranteed`,
  `Mediation.UserInvokesOnlyReads` and the arguments clause of `Mediation.ApprovalFidelity` hold on
  every store that does not lose only the first EXECUTING write.
* Control-plane transactions other than `resolve_approval` do not overlap on one call: a call's
  upserts are made one after another by its own task. Two transactions that resolve an approval
  interleave at their reads and commits, as PostgreSQL's READ COMMITTED lets them.
* A line of the audit file is written whole or not at all, also when the append raises.
* White space is the space, tab, line feed and carriage return; `upper` is ASCII.

## Model

| member | source | states |
|---|---|---|
| Circuit.CircuitBreaker.OpenNow | gateway/workers/circuit.py:23-30 | open while less than the reset timeout has passed since the circuit opened |
| Circuit.CircuitBreaker.Allow | gateway/workers/circuit.py:32-39 | refuses while open and otherwise closes a cooled-down circuit and forgets its failures |
| Circuit.CircuitBreaker.RecordSuccess | gateway/workers/circuit.py:41-45 | closes the circuit |
| Circuit.CircuitBreaker.RecordFailure | gateway/workers/circuit.py:47-52 | counts the failure and opens at the threshold |
| Circuit.BreakerRefinesHistory | gateway/workers/circuit.py:32-52 | after any history, the counter is the number of failures since the last success or cool-down reset, and the opening time is that of the latest of them exactly when they are at least the configured threshold, and at least one |
| Circuit.RefusedExactlyInCooldown | gateway/workers/circuit.py:23-39 | a submission is refused if and only if the history has tripped the breaker and its latest failure is within the cool-down |
| Circuit.StaysOpenWithoutSuccess | gateway/workers/circuit.py:23-52 | without a success, a tripped breaker refuses every submission inside the cool-down, whatever else fails meanwhile |
| WorkerService.WorkerService.Start | gateway/workers/service.py:113-121 | creates the worker tasks, once |
| WorkerService.WorkerService.QueuedJobs | gateway/workers/service.py:151-159 | drains the queue in order |
| WorkerService.WorkerService.InflightJobs | gateway/workers/service.py:161-164 | lists exactly the in-flight tickets |
| WorkerService.WorkerService.MarkUncertain | gateway/workers/service.py:166-177 | adds the job's reconciliation record |
| WorkerService.WorkerService.StopBegin | gateway/workers/service.py:123-145 | breaks every in-flight or queued future that is not done, records the mutations among them, and drains the queue |
| WorkerService.WorkerService.StopEnd | gateway/workers/service.py:147-149 | the first `stop` call whose tasks have ended clears them |
| WorkerService.WorkerService.LateStopEnd | gateway/workers/service.py:147-149 | a further `stop` call clears whatever pool there is by then |
| WorkerService.WorkerService.Submit | gateway/workers/service.py:179-211 | refuses, answers from the cache, joins the in-flight future, or admits and enqueues; a full queue undoes the admission and reports a failure |
| WorkerService.WorkerService.LeaderResumes | gateway/workers/service.py:212-233 | what the submitter is told for each outcome; the breaker hears a success for a success, a failure for a failed result, and nothing when `stop` broke the future |
| WorkerService.WorkerService.LeaderTimesOut | gateway/workers/service.py:214-226 | marks a timed-out mutation, raises by risk class, and reports a failure |
| WorkerService.WorkerService.Take | gateway/workers/service.py:247-248 | the oldest queued job goes to the idle worker |
| WorkerService.WorkerService.Execute | gateway/workers/service.py:273-291 | a success is cached under the key, a failed mutation is marked, an output that does not serialise is neither |
| WorkerService.WorkerService.Publish | gateway/workers/service.py:249-267 | resolves the future unless it is done |
| WorkerService.WorkerService.Release | gateway/workers/service.py:268-271 | the key leaves the in-flight map |
| WorkerService.WorkerService.Reconcile | gateway/workers/service.py:293-312 | replaces an existing record's status when an outcome is given, and fails without a record |
| WorkerInvariant.SubmitKeeps | gateway/workers/service.py:179-211 | a submission keeps the protocol invariant |
| WorkerInvariant.StopKeepsOwnership | gateway/workers/service.py:123-145 | `stop` keeps the ownership of keys |
| WorkerInvariant.StopKeepsAccounting | gateway/workers/service.py:123-145 | `stop` keeps the accounting of mutations |
| WorkerInvariant.StepKeeps | gateway/workers/service.py:113-312 | every atomic step keeps the protocol invariant |
| WorkerInvariant.ReachableOk | gateway/workers/service.py:113-312 | the protocol invariant holds after every interleaving |
| WorkerSafety.NoSharedKey | gateway/workers/service.py:190-211 | no two queued or executing jobs share an idempotency key, and no executing job has a key with a cached result |
| WorkerSafety.CacheIsWriteOnce | gateway/workers/service.py:190-290 | a cached result is never changed or dropped |
| WorkerSafety.AtMostOneSuccess | gateway/workers/service.py:190-291 | in any run, at most one execution per key completes |
| WorkerSafety.CacheComesFromExecution | gateway/workers/service.py:273-291 | every cached result is the output of an execution of that run |
| WorkerSafety.CompletedKeyAnswersForever | gateway/workers/service.py:190-193 | after a completed execution, a submission with its key is refused or answered with its result |
| WorkerSafety.CachedExactlyWhenCompleted | gateway/workers/service.py:273-291 | a key has a cached result if and only if an execution for it has completed |
| WorkerSafety.SuccessIsCached | gateway/workers/service.py:212-291 | whoever is told a success is told the one cached result of the key |
| WorkerSafety.InflightIsHeldOrDrained | gateway/workers/service.py:151-271 | the in-flight keys are the queued and executing ones plus those `stop` drained, disjointly, so they are exactly the former if and only if nothing was ever drained; the queue and the tracked pool stay in bounds |
| WorkerSafety.DrainedKeyIsNeverAdmitted | gateway/workers/service.py:126-196 | a key drained by `stop` is never admitted again, in any continuation |
| WorkerSafety.RestartLeavesStaleKey | gateway/workers/service.py:113-149 | the run that leaves such a key in an otherwise idle service |
| WorkerSafety.PoolIsTrackedExactly | gateway/workers/service.py:113-149 | every live worker is tracked, and there are at most as many as configured, if and only if no `stop` call has cleared a pool it did not wait for |
| WorkerSafety.SeparateStopsKeepPool | gateway/workers/service.py:113-149 | that never happens when no two `stop` calls overlap |
| WorkerSafety.OverlappingStopsDoublePool | gateway/workers/service.py:113-149 | two overlapping `stop` calls and two starts leave twice the configured number of workers |
| WorkerSafety.MutationsAccounted | gateway/workers/service.py:123-291 | an admitted mutation is awaited; or cancelled by its leader's timer, which is about to mark it or has; or broken by `stop` and recorded; or completed with its result cached; or failed and recorded; and its submitter was told no less; if and only if its failure was not one of serialising the output |
| WorkerSafety.AllAccountedWhenOutputsSerialise | gateway/workers/service.py:123-291 | when every handler's output serialises, all mutations are accounted for at every moment of the run |
| WorkerSafety.SerialisationLosesMutation | gateway/workers/service.py:276-288 | a run in which a completed mutation is reported as a plain failure and has no record |
| WorkerSafety.SuccessHasNoRecord | gateway/workers/service.py:166-233 | with unique job ids, a mutation reported as a success has no reconciliation record |
| WorkerSafety.StoppedMutationStaysUncertain | gateway/workers/service.py:123-140 | a mutation interrupted by `stop` is never reported as a success later, and stays recorded |
| WorkerSafety.NothingAdmittedInCooldown | gateway/workers/service.py:184-232 | while a tripped breaker cools down and no success is reported, no interleaving admits a job |
| WorkerReports.SubmitReports | gateway/workers/service.py:184-206 | a submission asks the breaker, and reports a failure exactly when everything else would admit it and the queue is full |
| WorkerReports.SubmitAnswers | gateway/workers/service.py:179-211 | every reply of a submission, by what it finds, in the source's order |
| WorkerReports.ResumeReports | gateway/workers/service.py:225-233 | what a leader reports for every outcome of its future |
| WorkerReports.TimeoutReports | gateway/workers/service.py:214-219 | a leader whose timer fired reports a failure |
| WorkerReports.StepReports | gateway/workers/service.py:179-233 | over all steps, the breaker hears one failure for each full queue, timeout and failed result, one success for each success, and apart from them only questions |
| WorkerReports.FailuresOpenTheCircuit | gateway/workers/service.py:184-232 | after a reset and until a success or the cool-down, in any interleaving, the circuit refuses every submission if and only if it has heard as many failures as the threshold (with gateway/workers/circuit.py:23-52) |
| WorkerReports.OldestIsTaken | gateway/workers/service.py:247-248 | in every reachable state a worker takes the job admitted first among those queued |
| Proxy.SignedJobIsAuthentic | gateway/workers/service.py:235-348 | a job built by the in-process client passes authentication and is keyed by its call |
| Proxy.KeysSeparateCalls | gateway/workers/service.py:377-388 | two proxied jobs with one key belong to the same call and tool |
| Proxy.OneCompletionPerCall | gateway/workers/service.py:190-388 | a call executes a tool to completion at most once, over all its retries and repairs and every interleaving |
| Proxy.AnswersStayWithinTheCall | gateway/workers/service.py:190-388 | what a submission is answered from, the cache or a job in flight, belongs to its own call and tool |
| Proxy.RepairedArgumentsAreNotExecuted | gateway/workers/service.py:190-388 | a retry with other arguments is answered with the first execution's output |
| Proxy.FailuresAreFlattened | gateway/workers/service.py:212-231 | in every reachable state, a leader is told needs_review after its timeout exactly for a mutation, and otherwise exactly when the worker's error said so or `stop` broke a mutation; every error is diagnosed as a tool error |
| Proxy.JoinersAreToldLess | gateway/workers/service.py:210-211 | a submitter that joined a future is told needs_review only for a mutation broken by `stop`; a failed result reaches it as a plain failure (with gateway/workers/service.py:349-354) |
| Proxy.TimeoutIsToldAsFailure | gateway/workers/service.py:253-267 | a run in which a mutation's sandbox timeout is told to its submitter as a plain tool failure (with gateway/workers/service.py:225-231) |
| Proxy.ProxiedCallsAreNotRetried | gateway/workers/service.py:366-388 | without a model, a proxied call makes exactly one executor call, whose result is the verdict (with gateway/repair/loop.py:86-87) |
| Repair.BaseDelayGrows | gateway/repair/backoff.py:20-22 | the base of the delay is non-negative, capped, and never decreases |
| Repair.DelayIsBounded | gateway/repair/backoff.py:17-24 | delays are non-negative, at most the cap plus its jitter ratio, and differ from their base by at most the jitter ratio of it |
| Repair.DelaySpreads | gateway/repair/backoff.py:20-24 | the middle draw gives the base, and the extreme draws the base plus and minus the jitter ratio of it |
| Repair.BaseDelayDoubles | gateway/repair/backoff.py:20-22 | the first base is the configured one, and each is twice the one before, all capped |
| Repair.StandardBackoff | gateway/repair/backoff.py:11-15 | the gateway's own limits: three attempts within thirty seconds, base delays of a quarter and half a second, and never more than six seconds |
| Repair.DiagnosisExactly | gateway/repair/diagnose.py:17-45 | every category, by the error's code and issue types |
| Repair.HandleFailure | gateway/repair/loop.py:64-94 | the decision after a failure follows the specification, in the source's order of tests |
| Repair.Run | gateway/repair/loop.py:58-94 | the loop computes the specified run: result and executor calls |
| Repair.CallsAreBounded | gateway/repair/loop.py:60-108 | at most max(1, max_attempts) executor calls numbered 1, 2, ...; the returned number is that of the first success |
| Repair.CallsFollow | gateway/repair/loop.py:64-110 | consecutive calls: the first failed retryably and in time, the next repeats its arguments after a timeout or crash and takes the repairer's otherwise, after the delay and within the total time; nothing follows a refusal |
| Repair.InterruptedCallsRepeat | gateway/repair/loop.py:80-88 | a sandbox timeout or crash is followed by the same arguments, any other failure by the repairer's |
| Repair.RunEndsExactly | gateway/repair/loop.py:64-94 | a run ends without an output only for a refusal, the last attempt, the time, a mutation, a missing or failing model, or a delay that does not fit, and with which error |
| Repair.MutationsRunOnce | gateway/repair/loop.py:64-112 | a call that is neither read-only nor idempotent runs once; a sandbox timeout or crash surfaces as needing review, any other failure as it is |
| Repair.ReviewExactlyWhenGivenUp | gateway/repair/loop.py:64-91 | a mutation's last timeout or crash surfaces as needing review if and only if it was the last attempt, came too late, or the tool is not idempotent |
| Repair.IdempotentTimeoutCanSurface | gateway/repair/loop.py:89-91 | an idempotent mutation's timeout that surfaces unmarked |
| StateStore.LastNumbered | gateway/state/redis_store.py:264-271 | the last attempt with a number, or none |
| StateStore.InMemoryStateStore.CreateCall | gateway/state/redis_store.py:223-228 | stores the call and appends it to its session |
| StateStore.InMemoryStateStore.Transition | gateway/state/redis_store.py:243-256 | appends a transition and makes it current; fails for an unknown call |
| StateStore.InMemoryStateStore.FinishAttempt | gateway/state/redis_store.py:258-273 | completes the last attempt with the number; fails without one |
| StateStore.InMemoryStateStore.StartAttempt | gateway/state/redis_store.py:275-282 | appends an open attempt |
| StateStore.UpdateKeepsTimely | gateway/state/redis_store.py:237-256 | an update keeps the history in time order and current |
| StateStore.SessionsAreInOrder | gateway/state/redis_store.py:223-228 | a session lists its calls in the order of their creation |
| StateStore.OwnOperationsDecide | gateway/state/redis_store.py:230-241 | a call's record depends on the operations on that call alone |
| StateStore.ReplayIsPerCall | gateway/state/redis_store.py:223-241 | serial execution leaves in every call's cell the fold of the operations on it |
| RedisStore.StepKeeps | gateway/state/redis_store.py:101-133 | every WATCH, GET, updater and EXEC step keeps the refinement invariant |
| RedisStore.InterleavingsAreSerial | gateway/state/redis_store.py:82-282 | any interleaving yields the records and session indexes of the in-memory store after the committed operations in commit order; each successful update is exactly one of them and none is lost |
| RedisStore.CallsAreIndependent | gateway/state/redis_store.py:82-133 | however many calls share the store, each call's record is the fold of its own committed operations in commit order |
| RedisStore.HistoriesAreChronological | gateway/state/redis_store.py:110-148 | every stored history is in time order and ends in the current state, for all concurrent writers |
| RedisStore.AbortsAreBounded | gateway/state/redis_store.py:111-129 | n concurrent updates of one call lose at most n(n-1)/2 EXECs when all commit, and at most k(k-1)/2 + (n-k)k when k have |
| Audit.VerifyAuditFile | gateway/audit/verify.py:13-44 | accepts a file if and only if its records form a chain from the genesis value, and otherwise names the first bad line and its fault |
| Audit.FaultExactly | gateway/audit/verify.py:23-42 | every fault, by what the line holds and the digest expected of it |
| Audit.PrefixVerifies | gateway/audit/verify.py:19-43 | every prefix of a verifying file verifies |
| Audit.HeadCommitsToHistory | gateway/audit/verify.py:31-43 | two verifying files with the same head hold the same records (with gateway/audit/log.py:25-28) |
| Audit.TamperingIsRejected | gateway/audit/verify.py:31-43 | any change to the records that keeps the head is rejected |
| Audit.ReadLastHash | gateway/audit/log.py:41-57 | what the logger resumes from is the head of the file |
| Audit.AuditLogger.Append | gateway/audit/log.py:59-85 | appends one record that holds exactly the given fields with the digest before it and its own, raising after the line is written if it cannot be synchronised; keeps the file valid if and only if it was valid and the logger's digest was its head |
| Audit.AppendKeepsChain | gateway/audit/log.py:59-85 | the same for the verifier's view of the appended file (with gateway/audit/verify.py:31-43) |
| Audit.RestartsKeepChain | gateway/audit/log.py:34-85 | appends split over any number of restarts, with blank lines in between, leave a file that verifies if and only if no logger appended again after an append that raised |
| Audit.RestartsResume | gateway/audit/log.py:34-85 | every append leaves one record, and every restart can resume |
| Audit.FileHoldsWrites | gateway/audit/log.py:59-85 | after any restarts, the file's records are the fields of everything that was appended, in order |
| Audit.SecondWriterBreaksChain | gateway/audit/log.py:34-84 | a second logger's record on the same file is rejected |
| Policy.ElevatedIsAuthorized | gateway/policy/policies/tools.rego:57-75 | an elevated caller is authorised |
| Policy.DecisionIsUnique | gateway/policy/policies/tools.rego:3-55 | the rules yield exactly one decision on every input |
| Policy.RolesNeverHurt | gateway/policy/policies/tools.rego:57-75 | adding roles never moves the outcome towards deny |
| Policy.OutcomeCharacterised | gateway/policy/policies/tools.rego:3-104 | the outcome and the rule for every input, over the text of its arguments and the caller's roles |
| Policy.DestructiveQueryExactly | gateway/policy/policies/tools.rego:77-99 | a query is destructive exactly with DROP or TRUNCATE anywhere, or DELETE or UPDATE at its start and no WHERE between spaces, in any case |
| Policy.HarmfulExactly | gateway/policy/policies/tools.rego:77-104 | the destructive operations are such queries and shell commands with ".." |
| Policy.UnboundedChangesNeedApproval | gateway/policy/policies/tools.rego:28-35 | a query that starts with DELETE or UPDATE and has no WHERE is never allowed, and goes to approval exactly for operators (with gateway/policy/policies/tools.rego:87-99) |
| Policy.DropsNeedApproval | gateway/policy/policies/tools.rego:28-35 | likewise with DROP or TRUNCATE, and for a shell command with ".." (with gateway/policy/policies/tools.rego:77-104) |
| Policy.DeleteIsDenied | gateway/policy/policies/tools.rego:87-92 | a caller with only the role user is denied `DELETE FROM orders` |
| Policy.UserReadsOnly | gateway/policy/policies/tools.rego:18-55 | a caller with only the role user gets nothing but read-only, non-destructive calls |
| Approval.WaitIsDecidedOnce | gateway/hitl/queue.py:76-92 | the wait ends at the first deadline or poll that sees a decision, with what the queue shows there |
| Approval.WaitExpires | gateway/hitl/queue.py:91-92 | otherwise it times out |
| Approval.WaitEndsExactly | gateway/hitl/queue.py:76-92 | every way a wait ends: by the deadline, with the approved request and its approver and reason, or with the reason of the rejection |
| Approval.WaitRunsOut | gateway/hitl/queue.py:91-92 | a wait that comes to neither ends with its time |
| Approval.QueueShowsStanding | gateway/hitl/queue.py:96-119 | the queue shows the submitted request with the last decision that gave a reason |
| Approval.GrantedExactlyWhenApproved | gateway/hitl/queue.py:73-119 | a request is granted if and only if the decision standing at the poll that ends the wait approves; the granted request is the submitted one |
| Approval.LateTurnsAreIgnored | gateway/hitl/queue.py:76-92 | decisions after the wait change nothing |
| Approval.InMemoryApprovalQueue.Submit | gateway/hitl/queue.py:155-160 | stores the request |
| Approval.InMemoryApprovalQueue.DecideRequest | gateway/hitl/queue.py:182-200 | records a decision with a reason on an existing request, and fails otherwise |
| Approval.InMemoryApprovalQueue.WaitFor | gateway/hitl/queue.py:162-180 | the outcome of the wait against operators and other submitters |
| Approval.RedisDecisionsAreAtomic | gateway/hitl/queue.py:96-119 | concurrent read-then-write decisions leave the requests of the atomic queue, in the order of their writes |
| Approval.RedisWaitRefines | gateway/hitl/queue.py:73-94 | polling Redis amid concurrent decisions and submissions is waiting on the atomic queue |
| Approval.RedisGrantsExactlyWhenApproved | gateway/hitl/queue.py:73-119 | on Redis too a request is granted if and only if the decision standing at the poll that ends the wait approves; the granted request is the submitted one |
| ControlPlane.Repository.UpsertToolCall | gateway/control_plane/repository.py:147-186 | writes the record's fields into its summary and replaces its attempt rows in one transaction, which repeated numbers roll back |
| ControlPlane.Repository.ListAttempts | gateway/control_plane/repository.py:244-253 | the call's rows, each once, in the order of their attempt numbers |
| ControlPlane.Repository.CreateApproval | gateway/control_plane/repository.py:105-125 | adds a pending approval under a new id |
| ControlPlane.Repository.ResolveApproval | gateway/control_plane/repository.py:127-145 | a transaction on its own resolves a pending approval and tells whether it did |
| ControlPlane.OrderedSorts | gateway/control_plane/repository.py:247-253 | the listing is sorted and a permutation |
| ControlPlane.UpsertReplacesHistory | gateway/control_plane/repository.py:147-253 | after an upsert the listing is the record's attempts, and other calls' listings are as before |
| ControlPlane.LastUpsertWins | gateway/control_plane/repository.py:150-186 | the last upsert determines rows and summary, except the creation time |
| ControlPlane.FirstResolutionStands | gateway/control_plane/repository.py:137-145 | transactions one after another: the first resolution of an approval stands through any later ones |
| ControlPlane.ResolutionsAreLastWriterWins | gateway/control_plane/repository.py:137-145 | however transactions interleave, the resolution committed last stands, and exactly those that committed one were told `True` |
| ControlPlane.FirstStandsExactlyWhenDisjoint | gateway/control_plane/repository.py:137-145 | of finished transactions at most one was told `True`, so that the first resolution stands, if and only if no two had read the approval as pending at the same time |
| ControlPlane.BothResolve | gateway/control_plane/repository.py:137-145 | two overlapping transactions that are both told `True`, the second overwriting the first |
| ToolCall.Pipeline.Transit | gateway/state/redis_store.py:135-148 | appends the transition, or fails and changes nothing |
| ToolCall.Pipeline.FinishAttempt | gateway/state/redis_store.py:150-165 | sets the attempt's outcome, or fails and changes nothing |
| ToolCall.Pipeline.PrepareRequest | gateway/server.py:355-396 | the first valid request after at most one model repair |
| ToolCall.Pipeline.AwaitApproval | gateway/server.py:429-473 | goes on exactly when the request was granted and recorded |
| ToolCall.Pipeline.Authorise | gateway/server.py:429-481 | goes on exactly when the decision clears the request, and otherwise raises and records what it should |
| ToolCall.Pipeline.Judge | gateway/server.py:399-481 | evaluates the first request, keeps the evidence, and goes on exactly when the decision clears it |
| ToolCall.Pipeline.GuardedBlock | gateway/server.py:491-557 | the policy recheck after attempt 1, validation, then the one handler invocation, with the specified outcome; what that outcome is for every answer is `Answers.CallAnswersExactly` |
| ToolCall.Pipeline.ExecuteAttempt | gateway/server.py:483-571 | result, attempt variables, record, invocation and evaluation of one executor call, under any store faults |
| ToolCall.Pipeline.RunLoop | gateway/server.py:607-617 | the loop over this call's closures yields the specified run, and logs each call (with gateway/repair/loop.py:58-94) |
| ToolCall.Pipeline.WriteAudit | gateway/server.py:281-320 | one audit record with the stored attempts, the first decision, its rule and the approver, and the durable upsert |
| ToolCall.Pipeline.Fail | gateway/server.py:322-352 | terminal state and last attempt's outcome, both with the error's text, the audit, and the client's code |
| ToolCall.Pipeline.Guarded | gateway/server.py:354-621 | the `try` block: verdict, record and success audit |
| ToolCall.Pipeline.Execute | gateway/server.py:244-625 | whatever fails, handlers and policy are asked exactly what the specification says, attempts are numbered as it says, the record is the fold of the operations made, an output is what the handler returned for the last invocation and implies a recorded success, and a recorded success a successful verdict; on a reliable store the stored transitions and attempts are the specified ones, a refused repair ends the call DENIED with policy_denied, and the reply, audit records with their evidence, and durable rows agree |
| ToolCall.DurableRows | gateway/server.py:286-300 | after a successful audit upsert the durable rows are the record's attempts (with gateway/control_plane/repository.py:147-186) |
| ToolCall.AdmissionRows | gateway/server.py:248-262 | admission leaves the first attempt, still open, as the durable history (with gateway/control_plane/repository.py:147-186) |
| ToolCall.RepeatedNumberFreezesRows | gateway/server.py:281-300 | once an attempt number repeats, no audit write changes the durable rows (with gateway/control_plane/repository.py:147-186) |
| ToolCall.SharedStoreHoldsRecord | gateway/server.py:244-625 | on a Redis store shared by any number of interleaving calls, the call's cell holds the pipeline's record (with gateway/state/redis_store.py:82-174) |
| ToolCall.UnserialisableIsAuditedTwice | gateway/server.py:618-625 | the call whose output does not serialise has two audit records, first a success and then a failure |
| Mediation.NumbersGrow | gateway/server.py:487-571 | attempt numbers never decrease, and increase past a call that got through |
| Mediation.RetriesAreMediated | gateway/server.py:492-534 | every invocation after attempt 1 was allowed by the evaluation of its own arguments |
| Mediation.FirstAttemptMediation | gateway/server.py:399-492 | an invocation as attempt 1 is mediated if and only if it runs the request evaluated first |
| Mediation.MediationExactly | gateway/server.py:399-571 | all invocations are mediated if and only if no attempt 1 runs another request |
| Mediation.MediationGuaranteed | gateway/server.py:399-617 | complete mediation, on every store that does not lose only the first EXECUTING write |
| Mediation.MediationWhenFirstWriteHolds | gateway/server.py:483-571 | complete mediation whenever the first EXECUTING write succeeds, whatever else fails |
| Mediation.LostWriteSkipsReview | gateway/server.py:487-571 | on every other store on which a call can reach execution, there is a call whose repaired arguments reach the handler as attempt 1 without an evaluation, or under the approval of other arguments (with gateway/repair/loop.py:86-94) |
| Mediation.OneInvocationPerNumber | gateway/server.py:487-571 | attempt numbers increase from one invocation to the next, so one approval authorises at most one |
| Mediation.ApprovalFidelity | gateway/server.py:429-534 | a call that needs approval invokes its handler only after an approval with a reason that the wait read in time, and as attempt 1 with the arguments submitted for approval unless only the first EXECUTING write is lost; later attempts were allowed outright (with gateway/hitl/queue.py:73-119) |
| Mediation.AuditNamesTheApprover | gateway/server.py:418-473 | the audit evidence of a call that got past its approval names the rule that asked for it and the operator whose decision stood at the poll that ended the wait (with gateway/hitl/queue.py:73-119) |
| Mediation.NoGrantNoInvocation | gateway/server.py:429-473 | a rejection, a timeout or a late decision never leads to an invocation |
| Mediation.UserInvokesOnlyReads | gateway/policy/policies/tools.rego:3-104 | a caller with only the role user invokes read-only handlers only, and, on every store that does not lose only the first EXECUTING write, with non-destructive requests only, whatever else fails, policy evaluations included (with gateway/server.py:399-534) |
| Mediation.LostWriteRunsDestructive | gateway/server.py:487-571 | on every other store on which a call can reach execution, such a caller's call runs a destructive request that its model proposed (with gateway/policy/policies/tools.rego:77-80) |
| Mediation.UserNeverMutates | gateway/policy/policies/tools.rego:18-55 | such a caller never invokes another handler, on any store and whichever evaluations fail (with gateway/server.py:399-481) |
| Mediation.MutationsInvokedOnce | gateway/repair/loop.py:111-112 | a non-idempotent mutation is invoked at most once per call (with gateway/server.py:607-617) |
| Answers.CallAnswersExactly | gateway/server.py:491-557 | on a reliable store an executor call answers the validator's error, the failed evaluation of repaired arguments, policy_denied for their refusal, or else what the handler answered |
| Answers.AnswersAreRecorded | gateway/server.py:560-568 | on any store an output or an error of the gateway's own is returned only once it has been recorded |
| Answers.LostWritesAnswer | gateway/server.py:488-490 | an executor call that cannot be recorded asks nothing and answers that the store is down |
| Answers.RefusedRepairEndsTheCall | gateway/server.py:516-534 | a refused repair is the last executor call: the client is told policy_denied, the call ends DENIED, and nothing is invoked any more (with gateway/repair/loop.py:105-106) |
| Answers.RefusalEndsTheLoop | gateway/repair/loop.py:66-79 | an executor call that answers a refusal is the last one, and its code is the client's |
| Answers.OutputIsTheHandlers | gateway/server.py:548-563 | on any store an output is what the handler returned for the last invocation |
| Answers.NextArgumentsExactly | gateway/server.py:573-605 | the next arguments are the same after a timeout or crash, and otherwise the model's proposal, which validates |
| Answers.FirstRequestExactly | gateway/server.py:355-396 | the first request, by the validator's and the model's answers; the model is asked for schema errors only |
| Answers.ErrorsAreTold | gateway/server.py:322-352 | reply, last state and last attempt agree on the exception that ended the call (with gateway/server.py:622-625) |
| Answers.OutputsAreTold | gateway/server.py:618-625 | reply and last attempt of a success, by whether its output serialises |
| Answers.RefusalsAreTold | gateway/server.py:474-481 | the reply, the transitions and the attempt log of a call whose first evaluation fails or refuses (with gateway/server.py:418-433) |
| Answers.ApprovalsAreTold | gateway/server.py:429-473 | the reply and the transitions for each outcome of the wait, an unreachable queue and a failing control plane |
| Answers.AllowedCallsExecute | gateway/server.py:418-429 | an allowed call goes straight to execution with the first request, and its evidence names the rule |
| Answers.ExecutingsAreCalls | gateway/server.py:490 | there is one EXECUTING for every executor call |
| Lifecycle.PrologueStage | gateway/server.py:230-481 | the transitions before the first attempt are a prefix of the lifecycle, and only a denial ends there twice |
| Lifecycle.LifecycleLanguage | gateway/server.py:230-625 | the transitions are in the lifecycle language if and only if the call did not succeed with an output that does not serialise |
| Lifecycle.LanguageExactly | gateway/server.py:230-481 | the lifecycle language, written out (with gateway/server.py:490-625) |
| Lifecycle.TerminalStateMatchesReply | gateway/server.py:322-625 | of the specified run that `ToolCall.Pipeline.Execute` is proved to leave in the store: SUCCEEDED, DENIED and FAILED last exactly for an output, the four denial codes, and the other errors |
| Lifecycle.SuccessIsExecuted | gateway/server.py:607-618 | SUCCEEDED needs an EXECUTING, and the output is that of the last executor call |
| Lifecycle.NumbersAgree | gateway/server.py:487-571 | on a reliable store the k-th executor call is attempt k |
| Lifecycle.AttemptLogAgrees | gateway/server.py:322-571 | of the specified run that `ToolCall.Pipeline.Execute` is proved to leave in the store: one attempt per executor call, or one; each finished if and only if not abandoned; earlier ones failed; the last one's word matches the last state |
| Lifecycle.NumbersRepeatExactly | gateway/server.py:487-490 | on any store, the recorded attempt numbers are distinct if and only if the second executor call does not start attempt 2 and lose its EXECUTING write before a third starts |
| Lifecycle.AttemptNumberRepeats | gateway/server.py:487-490 | a call whose attempt 2 is recorded twice |
| Lifecycle.FailedFollowsSucceeded | gateway/server.py:618-625 | a call whose transitions end in SUCCEEDED, FAILED |
| Lifecycle.AbandonedAttemptStaysOpen | gateway/server.py:559-571 | a call that succeeds while its first attempt stays unfinished |
| Report.RenderReport | eval/report.py:8-20 | the table: marker, header, one row per metric |
| Report.RowAppears | eval/report.py:18-20 | every metric has its row, a line of its own, in the order of the metrics |
| Report.Find | eval/report.py:38 | the first occurrence, or none |
| Report.StrippedIsUnique | eval/report.py:43 | stripping trailing white space is characterised by its result |
| Report.SurroundingsStay | eval/report.py:33-45 | what surrounds the section is kept, up to trailing white space before it |
| Report.SectionIsReplaced | eval/report.py:33-45 | in a document with the section, what precedes the marker is kept without trailing white space, and what follows from the next second-level heading on as it is |
| Report.SectionIsAppended | eval/report.py:40-45 | a document without the section gets it at the end |
| Report.LastReportWins | eval/report.py:29-45 | writing one report after another is writing the second alone, when the first has single-line names and values |

## Left out

- Transports and processes: HTTP, ASGI, stdio, the Redis and PostgreSQL clients, Docker and gVisor
  handling, tracing, metrics and logging.
- `gateway/workers/remote.py` and the worker's HTTP server: they add transport failures to the
  errors of `Proxy`.
- SHA-256, HMAC, JSON and Pydantic internals: a hash and a signature are functions, validation is a
  partial function.
- Redis expiry; connection failures and timeouts appear as an update that raises.
- External cancellation of a submitter or an audit append; a handler whose task is cancelled by
  `stop` may go on in its own thread, which the model does not follow.
- Liveness of submitters that join a future: only safety is stated. A joiner of a future that its
  leader's timer cancelled is itself cancelled; what a client sees then is not modelled.
- The key of a proxied invocation outside any call, which is a digest of the arguments.
- WorkerService.WorkerService.MarkUncertain: the copies of job fields inside a reconciliation
  record, and the time of its last change.
- ToolCall.Pipeline.WriteAudit: the record's policy input, repair events, runtime, duration and
  principal, which nothing else depends on.
- The control plane's tenants, principals, idempotency keys, policy versions and configuration, and
  the approval rows a call writes; a call's `create_approval` and `resolve_approval` only succeed or
  raise.
- The in-memory queue's condition variable: a notification is a poll. The listing of pending
  approvals, and reading a call or a session back.
- ControlPlane.Repository.UpsertToolCall: the summary's trace, tenant, subject and risk class.
- ControlPlane.Repository.CreateApproval: the row's copy of the request, its tenant and its rule.
- The list of gathered tasks of a `stop` call whose pool another one clears: such a call may resume
  at any later time.
- The advisors, token verification, settings, the command line, migrations, charts, the SQLite
  sandbox, and the evaluation drivers other than the report.
- ToolCall.Pipeline.RunLoop: a method cannot pass closures with effects, so this loop is written out
  beside `Repair.Run`; both share `Repair.HandleFailure` and the specification.
- Lifecycle.LifecycleLanguage: for a store that does not fail; on a failing one the record can stop
  anywhere, and only what "Assumptions" lists for such stores is claimed.
- Lifecycle.AttemptLogAgrees: likewise for a store that does not fail.
