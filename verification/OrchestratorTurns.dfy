// What one turn of the loop makes of a task, from each state and by the answers it gets.
module OrchestratorTurns {
  import opened Wrappers
  import opened StateMachine
  import opened Policy
  import opened DurableMachine
  import opened OrchestratorSafety
  import opened OrchestratorBounds
  import opened OrchestratorTransparency

  // Where the turn begun at the top of the loop ends: at its top again, or where the process gives up.
  function TurnEnd(x: Setup, e: Env, w: World): Config
    requires !Terminal(w.record.state)
  {
    NextHead(x, e, Step(x, e, Point(w, Head)))
  }

  function At(w: World, r: TaskRecord): Config {
    Point(w.(record := r), Head)
  }

  function BlockedFor(w: World, reason: Reason): Config {
    At(w, w.record.(state := RunState.Blocked, blockedReason := Some(reason)))
  }

  lemma BlockingEnds(x: Setup, e: Env, w: World, reason: Reason)
    requires !Terminal(w.record.state)
    ensures NextHead(x, e, Blocking(w, reason)) == BlockedFor(w, reason)
  {
    NextHeadAfterStep(x, e, Blocking(w, reason));
  }

  // A turn that ends the task is all that is left of the run.
  lemma TurnIsFinal(x: Setup, e: Env, w: World)
    requires !Terminal(w.record.state) && Stopped(TurnEnd(x, e, w))
    ensures Final(x, e, Point(w, Head)) == TurnEnd(x, e, w)
  {
    StepDescends(x, e, Point(w, Head));
    NextHeadDescends(x, e, Step(x, e, Point(w, Head)));
  }

  /* The clock */

  // More minutes have passed since the start than the task, or else the engine, allows; zero is no limit.
  predicate OutOfTime(x: Setup, e: Env, w: World) {
    var minutes := match x.task.maxWallClockMinutes
                   case Some(own) => own
                   case None => if x.config.maxWallClockMinutes.Some? then x.config.maxWallClockMinutes.value else 0.0;
    && minutes != 0.0 && w.record.startedAt.Some?
    && (e.now(w.record) - w.record.startedAt.value) as real / 60000.0 > minutes
  }

  lemma OutOfTimeExactly(x: Setup, e: Env, w: World)
    ensures CheckRuntimeBudget(x.config, x.task, w.record, e.now(w.record))
         == if OutOfTime(x, e, w) then Denied(WallClockBudgetExceeded) else Allowed
  {
  }

  // Out of time, a task is blocked for it, whatever its state.
  lemma TimeTurn(x: Setup, e: Env, w: World)
    requires !Terminal(w.record.state) && OutOfTime(x, e, w)
    ensures TurnEnd(x, e, w) == BlockedFor(w, WallClockBudgetExceeded)
  {
    OutOfTimeExactly(x, e, w);
    BlockingEnds(x, e, w, WallClockBudgetExceeded);
  }

  /* On the way to the worker */

  // A new task is ready at once, with its start on record and nothing else.
  lemma FirstTurn(x: Setup, e: Env, startedAt: int)
    ensures
      var end := NextHead(x, e, Initial(x, startedAt));
      var r := end.world.record;
      && end.pc.Head? && r.state == Ready && r.taskId == x.task.taskId && r.startedAt == Some(startedAt)
      && r.currentRunId == r.previousRunId == None && r.revisionCount == r.retryCount == r.runCount == 0
      && r.blockedReason == r.failedReason == None
      && end.world.prompts == map[] && end.world.results == map[] && end.world.reviews == map[]
        && end.world.executed == []
  {
    NextHeadAfterStep(x, e, Initial(x, startedAt));
  }

  lemma CreatedTurn(x: Setup, e: Env, w: World)
    requires w.record.state.Created? && !OutOfTime(x, e, w)
    ensures TurnEnd(x, e, w) == At(w, w.record.(state := Ready))
  {
    OutOfTimeExactly(x, e, w);
  }

  lemma ResultReadyTurn(x: Setup, e: Env, w: World)
    requires w.record.state.ResultReady? && !OutOfTime(x, e, w)
    ensures TurnEnd(x, e, w) == At(w, w.record.(state := Reviewing))
  {
    OutOfTimeExactly(x, e, w);
  }

  // The prompt a dispatch writes: after a review that asked for a revision it holds that review and the result
  // reviewed, otherwise it is the plain one.
  function NextPrompt(x: Setup, w: World): Prompt
    requires w.record.state.RevisionReady? ==> HasCompletedResult(w) && HasReview(w, Revise)
  {
    var run := x.ids(w.record.runCount);
    if w.record.state.RevisionReady? then
      RevisionPrompt(run, w.results[w.record.currentRunId.value], w.reviews[w.record.currentRunId.value])
    else WorkerPrompt(run)
  }

  lemma DispatchTurn(x: Setup, e: Env, w: World)
    requires FreshIds(x) && Safe(x, Point(w, Head)) && Dispatchable(w.record.state) && !OutOfTime(x, e, w)
    ensures
      var r, run := w.record, x.ids(w.record.runCount);
      TurnEnd(x, e, w) ==
        if x.task.maxRuns.Some? && 0 < x.task.maxRuns.value <= r.runCount then BlockedFor(w, RunBudgetExceeded)
        else
          At(w.(prompts := w.prompts[run := NextPrompt(x, w)]),
             r.(state := Dispatched, previousRunId := r.currentRunId, currentRunId := Some(run),
                runCount := r.runCount + 1))
  {
    OutOfTimeExactly(x, e, w);
    if x.task.maxRuns.Some? && 0 < x.task.maxRuns.value <= w.record.runCount {
      BlockingEnds(x, e, w, RunBudgetExceeded);
    } else {
      NextHeadAfterStep(x, e, DispatchStep(x, w));
    }
  }

  /* The worker */

  // An attempt that did not complete: retried while retries are left, else the task has failed.
  function Unsuccessful(x: Setup, w: World): Config {
    var r := w.record;
    if r.retryCount < x.config.maxWorkerRetries then At(w, r.(state := RetryReady, retryCount := r.retryCount + 1))
    else At(w, r.(state := Failed, failedReason := Some(WorkerRetryLimitExceeded)))
  }

  lemma RetryEnds(x: Setup, e: Env, w: World)
    requires w.record.state.Running?
    ensures NextHead(x, e, RetryOrFail(x, w)) == Unsuccessful(x, w)
  {
    NextHeadAfterStep(x, e, RetryOrFail(x, w));
  }

  // A result as it is filed: completed, or not.
  function Settled(x: Setup, w: World, result: WorkerResult): Config {
    if result.status == Succeeded then At(w, w.record.(state := ResultReady)) else Unsuccessful(x, w)
  }

  lemma ResultEnds(x: Setup, e: Env, w: World, result: WorkerResult)
    requires Coherent(Point(w, ResultDue(result)))
    ensures
      var run := w.record.currentRunId.value;
      NextHead(x, e, Point(w, ResultDue(result)))
      == if result.taskId == x.task.taskId && result.runId == run then
           Settled(x, w.(results := w.results[run := result]), result)
         else BlockedFor(w, WorkerResultInvalid)
  {
    var run := w.record.currentRunId.value;
    NextHeadAfterStep(x, e, Point(w, ResultDue(result)));
    if result.taskId == x.task.taskId && result.runId == run {
      var kept := w.(results := w.results[run := result]);
      NextHeadAfterStep(x, e, Point(kept, ResultKept));
      if result.status != Succeeded { RetryEnds(x, e, kept); }
    } else {
      BlockingEnds(x, e, w, WorkerResultInvalid);
    }
  }

  // The worker is called once, with the prompt and both counters. A result of its own run is filed and settled, a
  // result of any other blocks, and a worker that throws has not completed.
  lemma WorkTurn(x: Setup, e: Env, w: World)
    requires Safe(x, Point(w, Head)) && w.record.state.Dispatched? && !OutOfTime(x, e, w)
    ensures
      var r, run := w.record, w.record.currentRunId.value;
      if run !in w.prompts then TurnEnd(x, e, w) == BlockedFor(w, WorkerPromptMissing)
      else
        var called := w.(record := r.(state := Running), executed := w.executed + [run]);
        match e.worker(x.task, run, w.prompts[run], r.revisionCount, r.retryCount)
        case Returned(result) =>
          TurnEnd(x, e, w) ==
            if result.taskId == x.task.taskId && result.runId == run then
              Settled(x, called.(results := called.results[run := result]), result)
            else BlockedFor(called, WorkerResultInvalid)
        case Threw(message) =>
          var result := WorkerResult(run, x.task.taskId, Broken, message);
          TurnEnd(x, e, w) == Unsuccessful(x, called.(results := called.results[run := result]))
  {
    OutOfTimeExactly(x, e, w);
    var run := w.record.currentRunId.value;
    if run !in w.prompts {
      BlockingEnds(x, e, w, WorkerPromptMissing);
    } else {
      var started := StartStep(w);
      NextHeadAfterStep(x, e, started);
      var called := Step(x, e, started);
      ResultEnds(x, e, called.world, called.pc.result);
    }
  }

  // A new process goes to the top of the loop, except that it first settles a RUNNING task, whatever the time: by
  // the result on file, or as not completed.
  lemma ResumedTurn(x: Setup, e: Env, w: World)
    requires Safe(x, Resumed(w))
    ensures !w.record.state.Running? ==> Resumed(w) == Point(w, Head)
    ensures w.record.state.Running? ==>
      var run := w.record.currentRunId.value;
      NextHead(x, e, Resumed(w)) == if run in w.results then Settled(x, w, w.results[run]) else Unsuccessful(x, w)
  {
    if w.record.state.Running? {
      NextHeadAfterStep(x, e, Point(w, Recover));
      RetryEnds(x, e, w);
    }
  }

  /* The supervisor */

  // What is known of the run before when a review is asked for.
  function ReviewBefore(w: World): Option<Review> {
    match w.record.previousRunId
    case None => None
    case Some(previous) => if previous in w.reviews then Some(w.reviews[previous]) else None
  }

  predicate AsksUser(review: Review) {
    exists i :: 0 <= i < |review.findings| && review.findings[i].requiresUserDecision
  }

  predicate Recurs(review: Review, before: Review) {
    exists i, j :: 0 <= i < |review.findings| && 0 <= j < |before.findings|
                   && review.findings[i].fingerprint.Some? && review.findings[i].fingerprint.value != ""
                   && before.findings[j].fingerprint == review.findings[i].fingerprint
  }

  // What a review of the current run, on file, leads to.
  function Judged(x: Setup, w: World, review: Review): Config {
    var r := w.record;
    match review.decision
    case Pass => At(w, r.(state := Completed))
    case AskUser => BlockedFor(w, UserDecisionRequired)
    case Revise =>
      if AsksUser(review) then BlockedFor(w, UserDecisionRequired)
      else if r.revisionCount >= x.config.maxRevisions then BlockedFor(w, RevisionLimitExceeded)
      else if ReviewBefore(w).Some? && Recurs(review, ReviewBefore(w).value) then BlockedFor(w,
                                                                                             RepeatedUnresolvedFinding)
      else At(w, r.(state := RevisionReady, revisionCount := r.revisionCount + 1, retryCount := 0))
  }

  lemma AsksUserExactly(review: Review)
    ensures NeedsUser(review) <==> AsksUser(review)
  {
    if NeedsUser(review) {
      var f :| f in review.findings && f.requiresUserDecision;
      var i :| 0 <= i < |review.findings| && review.findings[i] == f;
    }
  }

  lemma RecursExactly(review: Review, before: Review)
    ensures Repeats(review, before) <==> Recurs(review, before)
  {
    if Repeats(review, before) {
      var f, g :| f in review.findings && g in before.findings && Marked(f) && f.fingerprint == g.fingerprint;
      var i :| 0 <= i < |review.findings| && review.findings[i] == f;
      var j :| 0 <= j < |before.findings| && before.findings[j] == g;
    }
    if Recurs(review, before) {
      var i, j :| 0 <= i < |review.findings| && 0 <= j < |before.findings|
                  && review.findings[i].fingerprint.Some? && review.findings[i].fingerprint.value != ""
                  && before.findings[j].fingerprint == review.findings[i].fingerprint;
      assert review.findings[i] in review.findings && before.findings[j] in before.findings;
    }
  }

  lemma JudgedEnds(x: Setup, e: Env, w: World, review: Review)
    requires w.record.state.Reviewing?
    ensures NextHead(x, e, ApplyStep(x, w, review)) == Judged(x, w, review)
  {
    AsksUserExactly(review);
    if ReviewBefore(w).Some? { RecursExactly(review, ReviewBefore(w).value); }
    if ApplyStep(x, w, review).pc.BlockDue? {
      BlockingEnds(x, e, w, ApplyStep(x, w, review).world.record.blockedReason.value);
    } else if ApplyStep(x, w, review).pc.ReviseDue? {
      NextHeadAfterStep(x, e, ApplyStep(x, w, review));
    }
  }

  // A review on file is judged again; otherwise the supervisor is asked, with the result, the review before and the
  // number of revisions, and a review of this very run is filed and judged. An unavailable supervisor ends the
  // process and leaves the task as it is; anything else blocks.
  lemma ReviewTurn(x: Setup, e: Env, w: World)
    requires Safe(x, Point(w, Head)) && w.record.state.Reviewing? && !OutOfTime(x, e, w)
    ensures
      var run := w.record.currentRunId.value;
      if run in w.reviews then TurnEnd(x, e, w) == Judged(x, w, w.reviews[run])
      else
        match e.supervisor(x.task, w.results[run], ReviewBefore(w), w.record.revisionCount)
        case Unavailable => TurnEnd(x, e, w) == Point(w, Thrown)
        case Invalid => TurnEnd(x, e, w) == BlockedFor(w, SupervisorResponseInvalid)
        case Replied(review) =>
          TurnEnd(x, e, w) ==
            if review.taskId == x.task.taskId && review.runId == run then
              Judged(x, w.(reviews := w.reviews[run := review]), review)
            else BlockedFor(w, SupervisorResponseInvalid)
  {
    OutOfTimeExactly(x, e, w);
    var run := w.record.currentRunId.value;
    if run in w.reviews {
      JudgedEnds(x, e, w, w.reviews[run]);
    } else {
      match e.supervisor(x.task, w.results[run], ReviewBefore(w), w.record.revisionCount) {
        case Unavailable =>
        case Invalid => BlockingEnds(x, e, w, SupervisorResponseInvalid);
        case Replied(review) =>
          if OwnReview(x, run, review) {
            RepliedEnds(x, e, w, review);
          } else {
            BlockingEnds(x, e, w, SupervisorResponseInvalid);
          }
      }
    }
  }

  lemma RepliedEnds(x: Setup, e: Env, w: World, review: Review)
    requires w.record.state.Reviewing? && HasRun(w)
    ensures
      var kept := w.(reviews := w.reviews[w.record.currentRunId.value := review]);
      NextHead(x, e, Point(kept, ReviewKept)) == Judged(x, kept, review)
  {
    var kept := w.(reviews := w.reviews[w.record.currentRunId.value := review]);
    NextHeadAfterStep(x, e, Point(kept, ReviewKept));
    JudgedEnds(x, e, kept, review);
  }

  // The review a REVIEWING task gets for its current run, on file or in reply.
  ghost predicate Gets(x: Setup, e: Env, w: World, review: Review)
    requires w.record.currentRunId.Some? && w.record.currentRunId.value in w.results
  {
    var run := w.record.currentRunId.value;
    && review.taskId == x.task.taskId && review.runId == run
    && if run in w.reviews then w.reviews[run] == review
       else e.supervisor(x.task, w.results[run], ReviewBefore(w), w.record.revisionCount) == Replied(review)
  }

  // A task whose run is passed in time is completed, and that is the end of it.
  lemma PassCompletes(x: Setup, e: Env, w: World, review: Review)
    requires Safe(x, Point(w, Head)) && w.record.state.Reviewing? && !OutOfTime(x, e, w)
    requires Gets(x, e, w, review) && review.decision == Pass
    ensures
      var end := Final(x, e, Point(w, Head));
      && end.pc.Head? && end.world.record == w.record.(state := Completed)
      && end.world.reviews == w.reviews[w.record.currentRunId.value := review]
      && end.world.results == w.results && end.world.executed == w.executed
  {
    ReviewTurn(x, e, w);
    TurnIsFinal(x, e, w);
  }

  // A task whose review asks the user, or cannot be followed by a revision, is blocked for that reason, finally.
  lemma ReviewBlocks(x: Setup, e: Env, w: World, review: Review)
    requires Safe(x, Point(w, Head)) && w.record.state.Reviewing? && !OutOfTime(x, e, w)
    requires Gets(x, e, w, review) && review.decision != Pass
    ensures
      var end := Final(x, e, Point(w, Head));
      && (review.decision == AskUser || AsksUser(review) ==>
            end.world.record == BlockedFor(w, UserDecisionRequired).world.record)
      && (review.decision == Revise && !AsksUser(review) && w.record.revisionCount >= x.config.maxRevisions ==>
            end.world.record == BlockedFor(w, RevisionLimitExceeded).world.record)
      && (review.decision == Revise && !AsksUser(review) && w.record.revisionCount < x.config.maxRevisions
          && ReviewBefore(w).Some? && Recurs(review, ReviewBefore(w).value) ==>
            end.world.record == BlockedFor(w, RepeatedUnresolvedFinding).world.record)
  {
    ReviewTurn(x, e, w);
    if Stopped(TurnEnd(x, e, w)) { TurnIsFinal(x, e, w); }
  }
}
