// Runs that do happen: the run bound is attained, and a technical retry hides a repeated finding.
module OrchestratorScenarios {
  import opened Wrappers
  import opened StateMachine
  import opened Policy
  import opened DurableMachine
  import opened OrchestratorSafety
  import opened OrchestratorBounds

  ghost predicate Reaches(x: Setup, e: Env, c: Config, d: Config) {
    exists n: nat :: StepN(x, e, c, n) == d
  }

  lemma StepNFirst(x: Setup, e: Env, c: Config, n: nat)
    requires n > 0
    ensures StepN(x, e, c, n) == StepN(x, e, Step(x, e, c), n - 1)
  {
  }

  lemma {:induction false} ReachesAfter(x: Setup, e: Env, c: Config, m: nat, d: Config)
    requires Reaches(x, e, StepN(x, e, c, m), d)
    ensures Reaches(x, e, c, d)
    decreases m
  {
    if m > 0 {
      StepNFirst(x, e, c, m);
      ReachesAfter(x, e, Step(x, e, c), m - 1, d);
      var n: nat :| StepN(x, e, Step(x, e, c), n) == d;
      StepNFirst(x, e, c, n + 1);
    }
  }

  lemma ReachesStep(x: Setup, e: Env, c: Config)
    ensures Reaches(x, e, c, Step(x, e, c))
  {
    assert StepN(x, e, c, 1) == Step(x, e, c) by { assert StepN(x, e, Step(x, e, c), 0) == Step(x, e, c); }
  }

  lemma ReachesTransitive(x: Setup, e: Env, a: Config, b: Config, c: Config)
    requires Reaches(x, e, a, b) && Reaches(x, e, b, c)
    ensures Reaches(x, e, a, c)
  {
    var m: nat :| StepN(x, e, a, m) == b;
    ReachesAfter(x, e, a, m, c);
  }

  lemma TwoSteps(x: Setup, e: Env, c: Config)
    requires FreshIds(x) && Safe(x, c)
    ensures var d := Step(x, e, Step(x, e, c)); Reaches(x, e, c, d) && Safe(x, d)
  {
    ReachesStep(x, e, c);
    ReachesStep(x, e, Step(x, e, c));
    ReachesTransitive(x, e, c, Step(x, e, c), Step(x, e, Step(x, e, c)));
    StepKeepsSafe(x, e, c);
    StepKeepsSafe(x, e, Step(x, e, c));
  }

  predicate Unlimited(x: Setup) {
    WallClockLimit(x.config, x.task).None? && x.task.maxRuns.None?
  }

  function NextRun(x: Setup, w: World): Id {
    x.ids(w.record.runCount)
  }

  // The worker answers the next run with its own result of this status, whatever the prompt.
  ghost predicate Yields(x: Setup, e: Env, w: World, status: WorkerStatus) {
    forall prompt :: e.worker(x.task, NextRun(x, w), prompt, w.record.revisionCount, w.record.retryCount)
                     == Returned(WorkerResult(NextRun(x, w), x.task.taskId, status, ""))
  }

  function Started(x: Setup, r: TaskRecord): TaskRecord {
    r.(state := Running, previousRunId := r.currentRunId, currentRunId := Some(x.ids(r.runCount)),
       runCount := r.runCount + 1)
  }

  lemma ToDispatched(x: Setup, e: Env, w: World) returns (d: Config)
    requires FreshIds(x) && Unlimited(x) && Safe(x, Point(w, Head)) && Dispatchable(w.record.state)
    ensures d == Step(x, e, Point(w, Head)) && Safe(x, d) && d.pc.PromptDue?
    ensures d.world == w.(record := Started(x, w.record).(state := Dispatched))
  {
    d := Step(x, e, Point(w, Head));
    StepKeepsSafe(x, e, Point(w, Head));
  }

  lemma ToPrompt(x: Setup, e: Env, w: World) returns (c: Config)
    requires FreshIds(x) && Unlimited(x) && Safe(x, Point(w, Head)) && Dispatchable(w.record.state)
    ensures Reaches(x, e, Point(w, Head), c) && Safe(x, c)
    ensures c.pc.Head? && c.world.record == Started(x, w.record).(state := Dispatched)
    ensures c.world.results == w.results && c.world.reviews == w.reviews && NextRun(x, w) in c.world.prompts
  {
    TwoSteps(x, e, Point(w, Head));
    var d := ToDispatched(x, e, w);
    FiledIsFiledHere(x, d.world);
    PromptSteady(x, d);
    c := Step(x, e, d);
  }

  lemma ToResult(x: Setup, e: Env, w: World, status: WorkerStatus) returns (c: Config)
    requires FreshIds(x) && Unlimited(x) && Safe(x, Point(w, Head)) && w.record.state.Dispatched?
    requires HasRun(w) && w.record.currentRunId.value in w.prompts
    requires forall prompt :: e.worker(x.task, w.record.currentRunId.value, prompt, w.record.revisionCount,
                                       w.record.retryCount)
                              == Returned(WorkerResult(w.record.currentRunId.value, x.task.taskId, status, ""))
    ensures Reaches(x, e, Point(w, Head), c) && Safe(x, c)
    ensures c.pc.ResultKept? && c.world.record == w.record.(state := Running) && c.world.reviews == w.reviews
    ensures
      var run := w.record.currentRunId.value;
      c.world.results == w.results[run := WorkerResult(run, x.task.taskId, status, "")]
  {
    TwoSteps(x, e, Point(w, Head));
    var b := Step(x, e, Step(x, e, Point(w, Head)));
    assert b.pc == ResultDue(WorkerResult(w.record.currentRunId.value, x.task.taskId, status, ""));
    c := Step(x, e, b);
    ReachesStep(x, e, b);
    ReachesTransitive(x, e, Point(w, Head), b, c);
    StepKeepsSafe(x, e, b);
  }

  // One attempt, from dispatch to the filed result.
  lemma Attempt(x: Setup, e: Env, w: World, status: WorkerStatus) returns (c: Config)
    requires FreshIds(x) && Unlimited(x) && Safe(x, Point(w, Head)) && Dispatchable(w.record.state)
    requires Yields(x, e, w, status)
    ensures Reaches(x, e, Point(w, Head), c) && Safe(x, c)
    ensures c.pc.ResultKept? && c.world.record == Started(x, w.record) && c.world.reviews == w.reviews
    ensures c.world.results == w.results[NextRun(x, w) := WorkerResult(NextRun(x, w), x.task.taskId, status, "")]
  {
    var d := ToPrompt(x, e, w);
    c := ToResult(x, e, d.world, status);
    ReachesTransitive(x, e, Point(w, Head), d, c);
  }

  // A failed attempt with retries left leads back to the next dispatch.
  lemma Retried(x: Setup, e: Env, c: Config) returns (w: World)
    requires FreshIds(x) && Safe(x, c) && c.pc.ResultKept?
    requires !c.world.results[c.world.record.currentRunId.value].status.Succeeded?
    requires c.world.record.retryCount < x.config.maxWorkerRetries
    ensures Reaches(x, e, c, Point(w, Head)) && Safe(x, Point(w, Head))
    ensures w == c.world.(record := c.world.record.(state := RetryReady, retryCount := c.world.record.retryCount + 1))
  {
    TwoSteps(x, e, c);
    w := Step(x, e, Step(x, e, c)).world;
  }

  // The supervisor answers this run's result by sending it back.
  ghost predicate SendsBack(x: Setup, e: Env, run: Id, result: WorkerResult, revisions: nat, review: Review) {
    && OwnReview(x, run, review) && review.decision.Revise?
    && forall previous :: e.supervisor(x.task, result, previous, revisions) == Replied(review)
  }

  lemma ToReviewing(x: Setup, e: Env, c: Config) returns (b: Config)
    requires FreshIds(x) && Unlimited(x) && Safe(x, c) && c.pc.ResultKept?
    requires c.world.results[c.world.record.currentRunId.value].status.Succeeded?
    ensures Reaches(x, e, c, b) && Safe(x, b)
    ensures b == Point(c.world.(record := c.world.record.(state := Reviewing)), Head)
  {
    TwoSteps(x, e, c);
    b := Step(x, e, Step(x, e, c));
  }

  lemma Reviewed(x: Setup, e: Env, c: Config, review: Review) returns (d: Config)
    requires FreshIds(x) && Unlimited(x) && Safe(x, c) && c.pc.ResultKept?
    requires c.world.results[c.world.record.currentRunId.value].status.Succeeded?
    requires c.world.record.currentRunId.value !in c.world.reviews
    requires SendsBack(x, e, c.world.record.currentRunId.value, c.world.results[c.world.record.currentRunId.value],
                       c.world.record.revisionCount, review)
    ensures Reaches(x, e, c, d) && Safe(x, d) && d.pc.ReviewKept?
    ensures d.world == c.world.(record := c.world.record.(state := Reviewing),
                                reviews := c.world.reviews[c.world.record.currentRunId.value := review])
  {
    var b := ToReviewing(x, e, c);
    d := Step(x, e, b);
    ReachesStep(x, e, b);
    ReachesTransitive(x, e, c, b, d);
    StepKeepsSafe(x, e, b);
  }

  lemma RevisesFirst(x: Setup, e: Env, d: Config)
    requires d.pc.ReviewKept?
    requires CanAutoRevise(x.config, d.world.record, d.world.reviews[d.world.record.currentRunId.value],
                           PreviousReview(d.world)).Allowed?
    ensures
      var r := d.world.record.(revisionCount := d.world.record.revisionCount + 1, retryCount := 0);
      Step(x, e, d) == Point(d.world.(record := r), ReviseDue)
  {
  }

  lemma MovesNext(x: Setup, e: Env, c: Config) returns (w: World)
    requires c.pc.ReviseDue?
    ensures Step(x, e, c) == Point(w, Head) && w == c.world.(record := c.world.record.(state := RevisionReady))
  {
    w := Step(x, e, c).world;
  }

  // A review that the policy lets through leads back to the next dispatch.
  lemma SentBack(x: Setup, e: Env, d: Config) returns (w: World)
    requires FreshIds(x) && Safe(x, d) && d.pc.ReviewKept?
    requires CanAutoRevise(x.config, d.world.record, d.world.reviews[d.world.record.currentRunId.value],
                           PreviousReview(d.world)).Allowed?
    ensures Reaches(x, e, d, Point(w, Head)) && Safe(x, Point(w, Head))
    ensures
      var r := d.world.record;
      w == d.world.(record := r.(state := RevisionReady, revisionCount := r.revisionCount + 1, retryCount := 0))
  {
    TwoSteps(x, e, d);
    RevisesFirst(x, e, d);
    w := MovesNext(x, e, Step(x, e, d));
  }

  // One attempt that completes, is sent back and may be revised.
  lemma Round(x: Setup, e: Env, w: World, review: Review) returns (w': World)
    requires FreshIds(x) && Unlimited(x) && Safe(x, Point(w, Head)) && Dispatchable(w.record.state)
    requires Yields(x, e, w, Succeeded)
    requires SendsBack(x, e, NextRun(x, w), WorkerResult(NextRun(x, w), x.task.taskId, Succeeded, ""),
                       w.record.revisionCount, review)
    requires w.record.revisionCount < x.config.maxRevisions && !NeedsUser(review)
    requires HasRun(w) && w.record.currentRunId.value in w.reviews ==>
      !Repeats(review, w.reviews[w.record.currentRunId.value])
    ensures Reaches(x, e, Point(w, Head), Point(w', Head)) && Safe(x, Point(w', Head))
    ensures w'.record
          == Started(x, w.record).(state := RevisionReady, revisionCount := w.record.revisionCount + 1, retryCount := 0)
    ensures w'.reviews == w.reviews[NextRun(x, w) := review]
  {
    var c := Attempt(x, e, w, Succeeded);
    NextRunUnreviewed(x, w);
    var d := Reviewed(x, e, c, review);
    w' := SentBack(x, e, d);
    ReachesTransitive(x, e, Point(w, Head), c, d);
    ReachesTransitive(x, e, Point(w, Head), d, Point(w', Head));
  }

  lemma NextRunUnreviewed(x: Setup, w: World)
    requires FreshIds(x) && Safe(x, Point(w, Head))
    ensures NextRun(x, w) !in w.reviews && w.record.currentRunId != Some(NextRun(x, w))
  {
  }

  // Ids of growing length.
  function Unary(n: nat): Id {
    seq(n, _ => 'r')
  }

  function Example(config: PolicyConfig): Setup {
    Setup(Task("t", None, None), config, Unary)
  }

  lemma ExampleFresh(config: PolicyConfig)
    ensures FreshIds(Example(config))
  {
  }

  lemma FirstHead(x: Setup, e: Env) returns (w: World)
    requires FreshIds(x)
    ensures Reaches(x, e, Initial(x, 0), Point(w, Head)) && Safe(x, Point(w, Head))
    ensures w == Initial(x, 0).world.(record := Initial(x, 0).world.record.(state := Ready))
  {
    InitialSafe(x, 0);
    StepKeepsSafe(x, e, Initial(x, 0));
    ReachesStep(x, e, Initial(x, 0));
    w := Step(x, e, Initial(x, 0)).world;
  }

  /* The run bound is attained */

  // Every run fails while a retry is left; every completed run is sent back without a finding.
  function Worst(config: PolicyConfig): Env {
    Env((task: Task, run, prompt, revisions, retries) =>
          Returned(WorkerResult(run, task.taskId, if retries < config.maxWorkerRetries then Broken else Succeeded, "")),
        (task: Task, result: WorkerResult, previous, revisions) =>
          Replied(Review(task.taskId, result.runId, Revise, [], "")),
        _ => 0)
  }

  // A head reached after so many revisions and retries, none of them wasted.
  ghost predicate OnSchedule(config: PolicyConfig, w: World) {
    && Safe(Example(config), Point(w, Head)) && Dispatchable(w.record.state)
    && w.record.revisionCount <= config.maxRevisions && w.record.retryCount <= config.maxWorkerRetries
    && w.record.runCount == Runs(Example(config), w.record.revisionCount) + w.record.retryCount
  }

  lemma {:induction false} Climb(config: PolicyConfig, w: World) returns (c: Config)
    requires config.maxWallClockMinutes.None? && OnSchedule(config, w)
    ensures Reaches(Example(config), Worst(config), Point(w, Head), c)
    ensures c.world.record.runCount == Runs(Example(config), config.maxRevisions + 1)
    decreases config.maxRevisions - w.record.revisionCount, config.maxWorkerRetries - w.record.retryCount
  {
    var x, e := Example(config), Worst(config);
    ExampleFresh(config);
    RunsNext(Example(config), w.record.revisionCount);
    if w.record.retryCount < config.maxWorkerRetries {
      var w' := FailOnce(config, w);
      c := Climb(config, w');
      ReachesTransitive(x, e, Point(w, Head), Point(w', Head), c);
    } else if w.record.revisionCount < config.maxRevisions {
      var w' := CompleteOnce(config, w);
      c := Climb(config, w');
      ReachesTransitive(x, e, Point(w, Head), Point(w', Head), c);
    } else {
      c := Attempt(x, e, w, Succeeded);
    }
  }

  lemma FailOnce(config: PolicyConfig, w: World) returns (w': World)
    requires config.maxWallClockMinutes.None? && OnSchedule(config, w) && w.record.retryCount < config.maxWorkerRetries
    ensures Reaches(Example(config), Worst(config), Point(w, Head), Point(w', Head)) && OnSchedule(config, w')
    ensures w'.record.revisionCount == w.record.revisionCount && w'.record.retryCount == w.record.retryCount + 1
  {
    var x, e := Example(config), Worst(config);
    ExampleFresh(config);
    var c := Attempt(x, e, w, Broken);
    w' := Retried(x, e, c);
    ReachesTransitive(x, e, Point(w, Head), c, Point(w', Head));
  }

  lemma CompleteOnce(config: PolicyConfig, w: World) returns (w': World)
    requires config.maxWallClockMinutes.None? && OnSchedule(config, w)
    requires w.record.retryCount == config.maxWorkerRetries && w.record.revisionCount < config.maxRevisions
    ensures Reaches(Example(config), Worst(config), Point(w, Head), Point(w', Head)) && OnSchedule(config, w')
    ensures w'.record.revisionCount == w.record.revisionCount + 1
  {
    var x, e := Example(config), Worst(config);
    ExampleFresh(config);
    RunsNext(Example(config), w.record.revisionCount);
    w' := Round(x, e, w, Review("t", NextRun(x, w), Revise, [], ""));
  }

  // No smaller bound holds: for all limits some uninterrupted run dispatches the worker (R+1)(W+1) times.
  lemma RunBoundAttained(config: PolicyConfig)
    requires config.maxWallClockMinutes.None?
    ensures exists c: Config :: Reaches(Example(config), Worst(config), Initial(Example(config), 0), c)
              && c.world.record.runCount == (config.maxRevisions + 1) * (config.maxWorkerRetries + 1)
  {
    ExampleFresh(config);
    var w := FirstHead(Example(config), Worst(config));
    var c := Climb(config, w);
    ReachesTransitive(Example(config), Worst(config), Initial(Example(config), 0), Point(w, Head), c);
  }

  /* A retry between two reviews hides a repeated finding */

  const TWO_REVISIONS := PolicyConfig(2, 1, None)

  // The second run fails; the others complete and are sent back with the same finding.
  function Stubborn(): Env {
    Env((task: Task, run: Id, prompt, revisions, retries) =>
          Returned(WorkerResult(run, task.taskId, if |run| == 1 then Broken else Succeeded, "")),
        (task: Task, result: WorkerResult, previous, revisions) =>
          Replied(Review(task.taskId, result.runId, Revise, [Finding(Some("f"), false)], "")),
        _ => 0)
  }

  function Repetition(run: Id): Review {
    Review("t", run, Revise, [Finding(Some("f"), false)], "")
  }

  // One attempt that completes and is sent back.
  lemma StubbornRound(w: World) returns (w': World)
    requires Safe(Example(TWO_REVISIONS), Point(w, Head)) && Dispatchable(w.record.state)
    requires w.record.runCount != 1 && w.record.revisionCount < 2
    requires w.record.currentRunId.Some? ==> w.record.currentRunId.value !in w.reviews
    ensures Reaches(Example(TWO_REVISIONS), Stubborn(), Point(w, Head), Point(w', Head))
    ensures Safe(Example(TWO_REVISIONS), Point(w', Head))
    ensures w'.record.state.RevisionReady? && w'.record.revisionCount == w.record.revisionCount + 1
    ensures w'.record.retryCount == 0
    ensures w'.record.runCount == w.record.runCount + 1
    ensures w'.reviews == w.reviews[Unary(w.record.runCount) := Repetition(Unary(w.record.runCount))]
  {
    var x, e := Example(TWO_REVISIONS), Stubborn();
    ExampleFresh(TWO_REVISIONS);
    assert |Unary(w.record.runCount)| == w.record.runCount;
    w' := Round(x, e, w, Repetition(Unary(w.record.runCount)));
  }

  lemma StubbornFailure(w: World) returns (w': World)
    requires Safe(Example(TWO_REVISIONS), Point(w, Head)) && Dispatchable(w.record.state)
    requires w.record.runCount == 1 && w.record.retryCount == 0
    ensures Reaches(Example(TWO_REVISIONS), Stubborn(), Point(w, Head), Point(w', Head))
    ensures Safe(Example(TWO_REVISIONS), Point(w', Head))
    ensures w'.record.state.RetryReady? && w'.record.revisionCount == w.record.revisionCount
    ensures w'.record.runCount == 2 && w'.record.currentRunId == Some(Unary(1)) && w'.reviews == w.reviews
  {
    var x, e := Example(TWO_REVISIONS), Stubborn();
    ExampleFresh(TWO_REVISIONS);
    assert |Unary(1)| == 1;
    var c := Attempt(x, e, w, Broken);
    w' := Retried(x, e, c);
    ReachesTransitive(x, e, Point(w, Head), c, Point(w', Head));
  }

  lemma StubbornPath() returns (w: World)
    ensures Reaches(Example(TWO_REVISIONS), Stubborn(), Initial(Example(TWO_REVISIONS), 0), Point(w, Head))
    ensures w.record.state.RevisionReady? && w.record.revisionCount == 2
    ensures w.reviews == map[Unary(0) := Repetition(Unary(0)), Unary(2) := Repetition(Unary(2))]
  {
    var x, e := Example(TWO_REVISIONS), Stubborn();
    ExampleFresh(TWO_REVISIONS);
    var w0 := FirstHead(x, e);
    var w1 := StubbornRound(w0);
    var w2 := StubbornFailure(w1);
    assert Unary(1) !in w2.reviews by { assert |Unary(0)| == 0 && |Unary(1)| == 1; }
    w := StubbornRound(w2);
    ReachesTransitive(x, e, Initial(x, 0), Point(w0, Head), Point(w1, Head));
    ReachesTransitive(x, e, Initial(x, 0), Point(w1, Head), Point(w2, Head));
    ReachesTransitive(x, e, Initial(x, 0), Point(w2, Head), Point(w, Head));
  }

  lemma RepetitionsRepeat(a: Id, b: Id)
    ensures Repeats(Repetition(a), Repetition(b))
  {
  }

  // Two reviews, one after the other and a revision apart, share a fingerprint, and yet another revision starts.
  lemma RetryHidesRepetition()
    ensures exists c: Config ::
              && Reaches(Example(TWO_REVISIONS), Stubborn(), Initial(Example(TWO_REVISIONS), 0), c)
              && c.world.record.state.RevisionReady? && c.world.record.revisionCount == 2
              && c.world.reviews.Keys == {Unary(0), Unary(2)}
              && Repeats(c.world.reviews[Unary(2)], c.world.reviews[Unary(0)])
  {
    var w := StubbornPath();
    RepetitionsRepeat(Unary(2), Unary(0));
    assert Unary(0) != Unary(2) by { assert |Unary(0)| == 0 && |Unary(2)| == 2; }
    assert w.reviews[Unary(0)] == Repetition(Unary(0)) && w.reviews[Unary(2)] == Repetition(Unary(2));
    assert Point(w, Head).world == w;
  }
}
