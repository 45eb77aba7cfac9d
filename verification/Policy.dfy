// Task data and the decisions of the policy engine.
module Policy {
  import opened Wrappers
  import opened StateMachine

  type Id = string

  datatype Task = Task(taskId: Id, maxRuns: Option<nat>, maxWallClockMinutes: Option<real>)

  datatype WorkerStatus = Succeeded | Broken | Cancelled

  datatype WorkerResult = WorkerResult(runId: Id, taskId: Id, status: WorkerStatus, summary: string)

  datatype Finding = Finding(fingerprint: Option<string>, requiresUserDecision: bool)

  datatype Verdict = Pass | Revise | AskUser

  datatype Review = Review(taskId: Id, runId: Id, decision: Verdict, findings: seq<Finding>, summary: string)

  datatype Prompt = WorkerPrompt(run: Id) | RevisionPrompt(run: Id, previous: WorkerResult, review: Review)

  datatype Reason =
    | RunBudgetExceeded | WallClockBudgetExceeded
    | RunIdMissing | WorkerPromptMissing | WorkerResultMissing | RevisionContextMissing
    | WorkerResultInvalid | SupervisorResponseInvalid
    | UserDecisionRequired | NotARevision | RevisionLimitExceeded | RepeatedUnresolvedFinding
    | WorkerRetryLimitExceeded

  datatype TaskRecord = TaskRecord(
    taskId: Id,
    state: RunState,
    currentRunId: Option<Id>,
    previousRunId: Option<Id>,
    revisionCount: nat,
    retryCount: nat,
    runCount: nat,
    startedAt: Option<int>,
    blockedReason: Option<Reason>,
    failedReason: Option<Reason>)

  datatype PolicyConfig = PolicyConfig(maxRevisions: nat, maxWorkerRetries: nat, maxWallClockMinutes: Option<real>)

  datatype Decision = Allowed | Denied(reason: Reason)

  function ShouldRetryWorker(config: PolicyConfig, retryCount: nat): Decision {
    if retryCount < config.maxWorkerRetries then Allowed else Denied(WorkerRetryLimitExceeded)
  }

  // The task's own limit, else the engine's; zero counts as no limit.
  function WallClockLimit(config: PolicyConfig, task: Task): Option<real> {
    var limit := if task.maxWallClockMinutes.Some? then task.maxWallClockMinutes else config.maxWallClockMinutes;
    if limit == Some(0.0) then None else limit
  }

  function CheckRuntimeBudget(config: PolicyConfig, task: Task, record: TaskRecord, now: int): Decision {
    var limit := WallClockLimit(config, task);
    if limit.None? || record.startedAt.None? then Allowed
    else if (now - record.startedAt.value) as real > limit.value * 60000.0 then Denied(WallClockBudgetExceeded)
    else Allowed
  }

  predicate Marked(f: Finding) {
    f.fingerprint.Some? && f.fingerprint.value != ""
  }

  predicate Repeats(review: Review, previous: Review) {
    exists f, g :: f in review.findings && g in previous.findings && Marked(f) && f.fingerprint == g.fingerprint
  }

  predicate NeedsUser(review: Review) {
    exists f :: f in review.findings && f.requiresUserDecision
  }

  function CanAutoRevise(config: PolicyConfig, record: TaskRecord, review: Review, previous: Option<Review>): Decision {
    if !review.decision.Revise? then
      Denied(if review.decision.AskUser? then UserDecisionRequired else NotARevision)
    else if NeedsUser(review) then Denied(UserDecisionRequired)
    else if record.revisionCount >= config.maxRevisions then Denied(RevisionLimitExceeded)
    else if previous.Some? && Repeats(review, previous.value) then Denied(RepeatedUnresolvedFinding)
    else Allowed
  }
}
