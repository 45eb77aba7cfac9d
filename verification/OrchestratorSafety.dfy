// What every reachable durable state keeps, whatever the worker, the supervisor, the clock and the crashes do.
module OrchestratorSafety {
  import opened Wrappers
  import opened StateMachine
  import opened Policy
  import opened DurableMachine

  ghost predicate Distinct(s: seq<Id>) {
    forall i, j :: 0 <= i < j < |s| ==> s[i] != s[j]
  }

  // The run-id supply never repeats an id.
  ghost predicate FreshIds(x: Setup) {
    forall i: nat, j: nat :: x.ids(i) == x.ids(j) ==> i == j
  }

  ghost predicate WasDispatched(x: Setup, w: World, id: Id) {
    exists n: nat :: n < w.record.runCount && x.ids(n) == id
  }

  // The record names the last two dispatched runs.
  ghost predicate RunsNamed(x: Setup, r: TaskRecord) {
    && r.taskId == x.task.taskId
    && r.currentRunId == (if r.runCount == 0 then None else Some(x.ids(r.runCount - 1)))
    && r.previousRunId == (if r.runCount < 2 then None else Some(x.ids(r.runCount - 2)))
    && (r.state.Created? || r.state.Ready? ==> r.runCount == 0)
    && (!r.state.Created? && !r.state.Ready? && !r.state.Blocked? ==> r.runCount > 0)
  }

  // Results and reviews belong to the runs they are filed under; only executed runs have results,
  // and only completed results are reviewed.
  ghost predicate Filed(x: Setup, w: World) {
    && (forall id :: id in w.prompts ==> WasDispatched(x, w, id))
    && (forall id :: id in w.executed ==> WasDispatched(x, w, id) && id in w.prompts)
    && (forall id :: id in w.results ==> id in w.executed && OwnResult(x, id, w.results[id]))
    && (forall id :: id in w.reviews ==>
          id in w.results && w.results[id].status.Succeeded? && OwnReview(x, id, w.reviews[id]))
    && Distinct(w.executed)
  }

  predicate HasCompletedResult(w: World) {
    && HasRun(w)
    && w.record.currentRunId.value in w.results
    && w.results[w.record.currentRunId.value].status.Succeeded?
  }

  predicate HasReview(w: World, verdict: Verdict) {
    && HasRun(w)
    && w.record.currentRunId.value in w.reviews
    && w.reviews[w.record.currentRunId.value].decision == verdict
  }

  predicate WorkerCalled(w: World) {
    HasRun(w) && w.record.currentRunId.value in w.executed
  }

  // The evidence each state carries for its current run.
  ghost predicate Certified(w: World) {
    match w.record.state
    case ResultReady => HasCompletedResult(w)
    case Reviewing => HasCompletedResult(w)
    case RevisionReady => HasCompletedResult(w) && HasReview(w, Revise)
    case Completed => HasCompletedResult(w) && HasReview(w, Pass)
    case Dispatched => !WorkerCalled(w)
    case _ => true
  }

  // What the volatile program counter adds.
  ghost predicate OnCourse(x: Setup, c: Config) {
    var w := c.world;
    match c.pc
    case Head => !w.record.state.Running?
    case PromptDue(revision) =>
      && w.record.currentRunId.value !in w.prompts
      && (revision ==> w.record.previousRunId.value in w.results && w.record.previousRunId.value in w.reviews)
    case ExecuteDue => !WorkerCalled(w)
    case ResultDue(_) => WorkerCalled(w) && w.record.currentRunId.value !in w.results
    case RetryDue => !HasCompletedResult(w)
    case FailDue => !HasCompletedResult(w) && w.record.retryCount >= x.config.maxWorkerRetries
    case ReviseDue => HasReview(w, Revise)
    case BlockDue => w.record.state.Running? ==>
        HasRun(w) && w.record.currentRunId.value !in w.results && w.record.blockedReason == Some(WorkerResultInvalid)
    case _ => true
  }

  predicate Unreachable(reason: Reason) {
    reason.RunIdMissing? || reason.WorkerResultMissing? || reason.RevisionContextMissing? || reason.NotARevision?
  }

  ghost predicate Safe(x: Setup, c: Config) {
    && RunsNamed(x, c.world.record)
    && Filed(x, c.world)
    && Certified(c.world)
    && OnCourse(x, c)
    && Explained(c.world)
  }

  // Changing the record files nothing, as long as no dispatch is forgotten.
  lemma RecordKeepsFiled(x: Setup, w: World, r: TaskRecord)
    requires Filed(x, w) && w.record.runCount <= r.runCount
    ensures Filed(x, w.(record := r))
  {
  }

  lemma PromptKeepsFiled(x: Setup, w: World, run: Id, prompt: Prompt)
    requires Filed(x, w) && WasDispatched(x, w, run)
    ensures Filed(x, w.(prompts := w.prompts[run := prompt]))
  {
  }

  lemma ExecutionKeepsFiled(x: Setup, w: World, run: Id)
    requires Filed(x, w) && run in w.prompts && run !in w.executed
    ensures Filed(x, w.(executed := w.executed + [run]))
  {
  }

  lemma ResultKeepsFiled(x: Setup, w: World, run: Id, result: WorkerResult)
    requires Filed(x, w) && run in w.executed && run !in w.results && OwnResult(x, run, result)
    ensures Filed(x, w.(results := w.results[run := result]))
  {
  }

  lemma ReviewKeepsFiled(x: Setup, w: World, run: Id, review: Review)
    requires Filed(x, w) && run in w.results && w.results[run].status.Succeeded? && OwnReview(x, run, review)
    ensures Filed(x, w.(reviews := w.reviews[run := review]))
  {
  }

  lemma CurrentDispatched(x: Setup, w: World)
    requires RunsNamed(x, w.record) && HasRun(w)
    ensures WasDispatched(x, w, w.record.currentRunId.value)
  {
  }

  // What Filed says about the runs a step can touch, without quantifiers.
  predicate FiledAt(x: Setup, w: World, id: Id) {
    && (id in w.results ==> id in w.executed && OwnResult(x, id, w.results[id]))
    && (id in w.reviews ==> id in w.results && w.results[id].status.Succeeded? && OwnReview(x, id, w.reviews[id]))
  }

  predicate FiledHere(x: Setup, w: World) {
    && (HasRun(w) ==> FiledAt(x, w, w.record.currentRunId.value))
    && (w.record.previousRunId.Some? ==> FiledAt(x, w, w.record.previousRunId.value))
    && x.ids(w.record.runCount) !in w.executed
    && x.ids(w.record.runCount) !in w.prompts
  }

  // A dispatched run is new to every log.
  lemma FiledIsFiledHere(x: Setup, w: World)
    requires FreshIds(x) && Filed(x, w)
    ensures FiledHere(x, w)
  {
  }

  // The five shapes of a write.
  ghost predicate Writes(x: Setup, w: World, w': World) {
    || (w' == w.(record := w'.record) && w.record.runCount <= w'.record.runCount)
    || (HasRun(w) &&
        var run := w.record.currentRunId.value;
        || (run !in w.prompts && run in w'.prompts && w' == w.(prompts := w.prompts[run := w'.prompts[run]]))
        || (run in w.prompts && run !in w.executed && w' == w.(executed := w.executed + [run]))
        || (run in w.executed && run !in w.results && run in w'.results && OwnResult(x, run, w'.results[run])
            && w' == w.(results := w.results[run := w'.results[run]]))
        || (run in w.results && w.results[run].status.Succeeded? && run !in w.reviews && run in w'.reviews
            && OwnReview(x, run, w'.reviews[run]) && w' == w.(reviews := w.reviews[run := w'.reviews[run]])))
  }

  lemma StepWrites(x: Setup, e: Env, c: Config)
    requires FiledHere(x, c.world) && Certified(c.world) && OnCourse(x, c)
    ensures Writes(x, c.world, Step(x, e, c).world)
  {
  }

  lemma WriteKeepsFiled(x: Setup, w: World, w': World)
    requires Filed(x, w) && RunsNamed(x, w.record) && Writes(x, w, w')
    ensures Filed(x, w')
  {
    if w' == w.(record := w'.record) && w.record.runCount <= w'.record.runCount {
      RecordKeepsFiled(x, w, w'.record);
    } else {
      var run := w.record.currentRunId.value;
      CurrentDispatched(x, w);
      if run in w'.prompts && w' == w.(prompts := w.prompts[run := w'.prompts[run]]) {
        PromptKeepsFiled(x, w, run, w'.prompts[run]);
      } else if w' == w.(executed := w.executed + [run]) {
        ExecutionKeepsFiled(x, w, run);
      } else if run in w'.results && w' == w.(results := w.results[run := w'.results[run]]) {
        ResultKeepsFiled(x, w, run, w'.results[run]);
      } else {
        ReviewKeepsFiled(x, w, run, w'.reviews[run]);
      }
    }
  }

  predicate Explained(w: World) {
    w.record.blockedReason.Some? ==> !Unreachable(w.record.blockedReason.value)
  }

  // The part of Safe that speaks of the record and its current and previous run only.
  ghost predicate Steady(x: Setup, c: Config) {
    RunsNamed(x, c.world.record) && Certified(c.world) && OnCourse(x, c) && Explained(c.world)
  }

  lemma DispatchSteady(x: Setup, w: World)
    requires Steady(x, Point(w, Head)) && FiledHere(x, w) && Dispatchable(w.record.state)
    ensures Steady(x, DispatchStep(x, w))
  {
  }

  lemma PromptSteady(x: Setup, c: Config)
    requires Steady(x, c) && FiledHere(x, c.world) && c.pc.PromptDue?
    ensures Steady(x, PromptStep(x, c.world, c.pc.revision))
    ensures PromptStep(x, c.world, c.pc.revision).pc.Head?
  {
  }

  lemma RetrySteady(x: Setup, w: World)
    requires w.record.state.Running? && RunsNamed(x, w.record) && Explained(w) && !HasCompletedResult(w)
    ensures Steady(x, RetryOrFail(x, w))
  {
  }

  lemma RecoverSteady(x: Setup, w: World)
    requires w.record.state.Running? && Steady(x, Point(w, Recover)) && FiledHere(x, w)
    ensures Steady(x, RecoverStep(x, w))
  {
    if !HasCompletedResult(w) { RetrySteady(x, w); }
  }

  lemma ApplySteady(x: Setup, w: World)
    requires RunsNamed(x, w.record) && Certified(w) && Explained(w)
    requires w.record.state.Reviewing? && w.record.currentRunId.value in w.reviews
    ensures Steady(x, ApplyStep(x, w, w.reviews[w.record.currentRunId.value]))
  {
  }

  lemma ReviewSteady(x: Setup, e: Env, w: World)
    requires Steady(x, Point(w, Head)) && w.record.state.Reviewing?
    ensures Steady(x, ReviewStep(x, e, w))
  {
    if w.record.currentRunId.value in w.reviews { ApplySteady(x, w); }
  }

  lemma BlockingSteady(x: Setup, w: World, reason: Reason)
    requires RunsNamed(x, w.record) && Certified(w) && !Unreachable(reason)
    requires !Terminal(w.record.state) && !w.record.state.Running?
    ensures Steady(x, Blocking(w, reason))
  {
  }

  lemma HeadSteady(x: Setup, e: Env, w: World)
    requires Steady(x, Point(w, Head)) && FiledHere(x, w)
    ensures Steady(x, HeadStep(x, e, w))
  {
    if Terminal(w.record.state) {
    } else if CheckRuntimeBudget(x.config, x.task, w.record, e.now(w.record)).Denied? {
      BlockingSteady(x, w, WallClockBudgetExceeded);
    } else if Dispatchable(w.record.state) {
      DispatchSteady(x, w);
    } else if w.record.state.Reviewing? {
      ReviewSteady(x, e, w);
    } else if w.record.state.Dispatched? {
      assert Steady(x, StartStep(w));
    }
  }

  lemma WorkerSteady(x: Setup, e: Env, c: Config)
    requires Steady(x, c) && FiledHere(x, c.world)
    requires c.pc.ExecuteDue? || c.pc.ResultDue? || c.pc.ResultKept?
    ensures Steady(x, Step(x, e, c))
  {
  }

  lemma StepSteady(x: Setup, e: Env, c: Config)
    requires Steady(x, c) && FiledHere(x, c.world)
    ensures Steady(x, Step(x, e, c))
  {
    match c.pc {
      case Head => HeadSteady(x, e, c.world);
      case Recover => RecoverSteady(x, c.world);
      case PromptDue(_) => PromptSteady(x, c);
      case ReviewKept => ApplySteady(x, c.world);
      case ExecuteDue | ResultDue(_) | ResultKept => WorkerSteady(x, e, c);
      case _ =>
    }
  }

  lemma StepKeepsSafe(x: Setup, e: Env, c: Config)
    requires FreshIds(x) && Safe(x, c)
    ensures Safe(x, Step(x, e, c))
  {
    FiledIsFiledHere(x, c.world);
    StepWrites(x, e, c);
    WriteKeepsFiled(x, c.world, Step(x, e, c).world);
    StepSteady(x, e, c);
  }

  lemma CrashKeepsSafe(x: Setup, c: Config)
    requires Safe(x, c)
    ensures Safe(x, Resumed(c.world))
  {
  }

  lemma InitialSafe(x: Setup, startedAt: int)
    ensures Safe(x, Initial(x, startedAt))
  {
  }

  lemma {:induction false} LifeSafe(x: Setup, l: Life, events: seq<Event>)
    requires FreshIds(x) && Safe(x, l.config)
    ensures Safe(x, Live(x, l, events).config)
    decreases |events|
  {
    if events != [] {
      StepKeepsSafe(x, l.env, l.config);
      CrashKeepsSafe(x, l.config);
      LifeSafe(x, React(x, l, events[0]), events[1..]);
    }
  }

  // The COMPLETED certificate: in every durable state of every life, a completed task has a completed
  // result and a PASS review of its own current run, and the states on the way carry theirs.
  lemma CompletedCertificate(x: Setup, startedAt: int, e: Env, events: seq<Event>)
    requires FreshIds(x)
    ensures
      var w := Live(x, Life(Initial(x, startedAt), e), events).config.world;
      && (w.record.state.Completed? ==> HasCompletedResult(w) && HasReview(w, Pass))
      && (w.record.state.ResultReady? || w.record.state.Reviewing? ==> HasCompletedResult(w))
      && (w.record.state.RevisionReady? ==> HasCompletedResult(w) && HasReview(w, Revise))
      && (forall id :: id in w.results ==> OwnResult(x, id, w.results[id]))
      && (forall id :: id in w.reviews ==> OwnReview(x, id, w.reviews[id]))
  {
    InitialSafe(x, startedAt);
    LifeSafe(x, Life(Initial(x, startedAt), e), events);
  }

  // The defensive blocks for lost context never happen.
  lemma LostContextUnreachable(x: Setup, startedAt: int, e: Env, events: seq<Event>)
    requires FreshIds(x)
    ensures
      var r := Live(x, Life(Initial(x, startedAt), e), events).config.world.record;
      && r.blockedReason != Some(RunIdMissing)
      && r.blockedReason != Some(WorkerResultMissing)
      && r.blockedReason != Some(RevisionContextMissing)
  {
    InitialSafe(x, startedAt);
    LifeSafe(x, Life(Initial(x, startedAt), e), events);
  }

  // The worker is called at most once per run, over any number of crashes and resumes.
  lemma WorkerAtMostOnce(x: Setup, startedAt: int, e: Env, events: seq<Event>)
    requires FreshIds(x)
    ensures
      var w := Live(x, Life(Initial(x, startedAt), e), events).config.world;
      && Distinct(w.executed)
      && (forall id :: id in w.results ==> id in w.executed)
      && (forall id :: id in w.executed ==> id in w.prompts)
  {
    InitialSafe(x, startedAt);
    LifeSafe(x, Life(Initial(x, startedAt), e), events);
  }

  ghost predicate Extends<T>(m: map<Id, T>, m': map<Id, T>) {
    forall id :: id in m ==> id in m' && m'[id] == m[id]
  }

  // Nothing filed is ever overwritten, and no worker call forgotten.
  ghost predicate Keeps(w: World, w': World) {
    && Extends(w.prompts, w'.prompts)
    && Extends(w.results, w'.results)
    && Extends(w.reviews, w'.reviews)
    && w.executed <= w'.executed
  }

  lemma {:induction false} NeverOverwritten(x: Setup, l: Life, events: seq<Event>)
    requires FreshIds(x) && Safe(x, l.config)
    ensures Keeps(l.config.world, Live(x, l, events).config.world)
    decreases |events|
  {
    if events != [] {
      var l' := React(x, l, events[0]);
      assert Keeps(l.config.world, l'.config.world) by {
        if events[0].Tick? {
          FiledIsFiledHere(x, l.config.world);
          StepWrites(x, l.env, l.config);
        }
      }
      StepKeepsSafe(x, l.env, l.config);
      CrashKeepsSafe(x, l.config);
      NeverOverwritten(x, l', events[1..]);
    }
  }
}
