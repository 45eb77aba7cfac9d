// The orchestrator as a machine whose every step is one durable write or one worker call.
// A crash can fall between any two steps; what survives is the World, what is lost is the Pc.
module DurableMachine {
  import opened Wrappers
  import opened StateMachine
  import opened Policy

  // Everything that outlives the process. `executed` is the log of worker calls, kept by the outside world.
  datatype World = World(
    record: TaskRecord,
    prompts: map<Id, Prompt>,
    results: map<Id, WorkerResult>,
    reviews: map<Id, Review>,
    executed: seq<Id>)

  // What the process still has to do; volatile.
  datatype Pc =
    | ValidateDue              // `run` has saved the CREATED record
    | Head                     // top of the advance loop
    | Recover                  // `resume` found RUNNING
    | PromptDue(revision: bool)
    | ExecuteDue               // START is saved, the worker is to be called
    | ResultDue(result: WorkerResult)
    | ResultKept
    | RetryDue                 // the retry counter is saved, its move is not
    | FailDue                  // the failure reason is saved, its move is not
    | ReviewKept
    | ReviseDue                // the revision counter is saved, its move is not
    | BlockDue                 // the block reason is saved, its move is not
    | Thrown                   // SupervisorUnavailableError left the process

  datatype Point = Point(world: World, pc: Pc)

  datatype WorkerOutcome = Returned(result: WorkerResult) | Threw(message: string)

  // Invalid covers a reply that fails validation and any error other than unavailability.
  datatype SupervisorOutcome = Replied(review: Review) | Invalid | Unavailable

  // What stays the same over the whole life of a task. Run ids are handed out in order:
  // dispatch n takes ids(n), and the dispatch write itself increments runCount.
  datatype Setup = Setup(task: Task, config: PolicyConfig, ids: nat -> Id)

  // The outside world as one process incarnation meets it. Within an incarnation no argument
  // recurs, so functions of these arguments are as general as arbitrary answers.
  datatype Env = Env(
    worker: (Task, Id, Prompt, nat, nat) -> WorkerOutcome,
    supervisor: (Task, WorkerResult, Option<Review>, nat) -> SupervisorOutcome,
    now: TaskRecord -> int)

  predicate Dispatchable(s: RunState) {
    s.Ready? || s.RetryReady? || s.RevisionReady?
  }

  predicate HasRun(w: World) {
    w.record.currentRunId.Some?
  }

  // What a program counter says about the record it was reached with. Together with the type
  // Config it makes every move below a defined transition.
  predicate Coherent(c: Point) {
    var r := c.world.record;
    match c.pc
    case ValidateDue => r.state.Created?
    case Head => true
    case Recover => r.state.Running?
    case PromptDue(revision) => r.state.Dispatched? && HasRun(c.world) && (revision ==> r.previousRunId.Some?)
    case ExecuteDue => r.state.Running? && HasRun(c.world) && r.currentRunId.value in c.world.prompts
    case ResultDue(_) => r.state.Running? && HasRun(c.world)
    case ResultKept => r.state.Running? && HasRun(c.world) && r.currentRunId.value in c.world.results
    case RetryDue => r.state.Running?
    case FailDue => r.state.Running?
    case ReviewKept => r.state.Reviewing? && HasRun(c.world) && r.currentRunId.value in c.world.reviews
    case ReviseDue => r.state.Reviewing?
    case BlockDue => !Terminal(r.state)
    case Thrown => r.state.Reviewing?
  }

  const FRESH_RECORD := TaskRecord("", Created, None, None, 0, 0, 0, None, None, None)
  const EMPTY_WORLD := World(FRESH_RECORD, map[], map[], map[], [])

  type Config = c: Point | Coherent(c) witness Point(EMPTY_WORLD, Head)

  predicate Stopped(c: Config) {
    c.pc.Thrown? || (c.pc.Head? && Terminal(c.world.record.state))
  }

  function Moved(r: TaskRecord, event: StateEvent): TaskRecord
    requires Transition(r.state, event).Some?
  {
    r.(state := Transition(r.state, event).value)
  }

  function Move(w: World, event: StateEvent): (c: Config)
    requires Transition(w.record.state, event).Some?
  {
    Point(w.(record := Moved(w.record, event)), Head)
  }

  function Blocking(w: World, reason: Reason): (c: Config)
    requires !Terminal(w.record.state)
  {
    Point(w.(record := w.record.(blockedReason := Some(reason))), BlockDue)
  }

  predicate OwnResult(x: Setup, run: Id, result: WorkerResult) {
    result.taskId == x.task.taskId && result.runId == run
  }

  predicate OwnReview(x: Setup, run: Id, review: Review) {
    review.taskId == x.task.taskId && review.runId == run
  }

  function PreviousReview(w: World): Option<Review> {
    if w.record.previousRunId.Some? && w.record.previousRunId.value in w.reviews
    then Some(w.reviews[w.record.previousRunId.value]) else None
  }

  predicate RunBudgetSpent(x: Setup, r: TaskRecord) {
    x.task.maxRuns.Some? && x.task.maxRuns.value != 0 && r.runCount >= x.task.maxRuns.value
  }

  function DispatchRecord(x: Setup, r: TaskRecord): TaskRecord
    requires Dispatchable(r.state)
  {
    Moved(r.(previousRunId := r.currentRunId, currentRunId := Some(x.ids(r.runCount)), runCount := r.runCount + 1),
          Dispatch)
  }

  function DispatchStep(x: Setup, w: World): Config
    requires Dispatchable(w.record.state)
  {
    if RunBudgetSpent(x, w.record) then Blocking(w, RunBudgetExceeded)
    else
      Point(w.(record := DispatchRecord(x, w.record)), PromptDue(w.record.state.RevisionReady? && HasRun(w)))
  }

  function PromptStep(x: Setup, w: World, revision: bool): Config
    requires Coherent(Point(w, PromptDue(revision)))
  {
    var run := w.record.currentRunId.value;
    if !revision then Point(w.(prompts := w.prompts[run := WorkerPrompt(run)]), Head)
    else
      var previous := w.record.previousRunId.value;
      if previous !in w.results || previous !in w.reviews then Blocking(w, RevisionContextMissing)
      else if !OwnResult(x, previous, w.results[previous]) then Blocking(w, WorkerResultInvalid)
      else if !OwnReview(x, previous, w.reviews[previous]) then Blocking(w, SupervisorResponseInvalid)
      else
        Point(w.(prompts := w.prompts[run := RevisionPrompt(run, w.results[previous], w.reviews[previous])]), Head)
  }

  function StartStep(w: World): Config
    requires w.record.state.Dispatched?
  {
    if !HasRun(w) then Blocking(w, RunIdMissing)
    else if w.record.currentRunId.value !in w.prompts then Blocking(w, WorkerPromptMissing)
    else Point(w.(record := Moved(w.record, Start)), ExecuteDue)
  }

  // A worker that throws yields a failed result of its own run.
  function ResultOf(x: Setup, run: Id, outcome: WorkerOutcome): WorkerResult {
    match outcome
    case Returned(result) => result
    case Threw(message) => WorkerResult(run, x.task.taskId, Broken, message)
  }

  function WorkerAnswer(x: Setup, e: Env, w: World): WorkerResult
    requires HasRun(w) && w.record.currentRunId.value in w.prompts
  {
    var run := w.record.currentRunId.value;
    ResultOf(x, run, e.worker(x.task, run, w.prompts[run], w.record.revisionCount, w.record.retryCount))
  }

  function ExecuteStep(x: Setup, e: Env, w: World): Config
    requires Coherent(Point(w, ExecuteDue))
  {
    Point(w.(executed := w.executed + [w.record.currentRunId.value]), ResultDue(WorkerAnswer(x, e, w)))
  }

  function ResultStep(x: Setup, w: World, result: WorkerResult): Config
    requires Coherent(Point(w, ResultDue(result)))
  {
    var run := w.record.currentRunId.value;
    if !OwnResult(x, run, result) then Blocking(w, WorkerResultInvalid)
    else Point(w.(results := w.results[run := result]), ResultKept)
  }

  function RetryOrFail(x: Setup, w: World): Config
    requires w.record.state.Running?
  {
    match ShouldRetryWorker(x.config, w.record.retryCount)
    case Allowed => Point(w.(record := w.record.(retryCount := w.record.retryCount + 1)), RetryDue)
    case Denied(reason) => Point(w.(record := w.record.(failedReason := Some(reason))), FailDue)
  }

  function AfterResult(x: Setup, w: World, result: WorkerResult): Config
    requires w.record.state.Running?
  {
    if result.status.Succeeded? then Move(w, WorkerSucceeded) else RetryOrFail(x, w)
  }

  function RecoverStep(x: Setup, w: World): Config
    requires w.record.state.Running?
  {
    if !HasRun(w) then Blocking(w, RunIdMissing)
    else
      var run := w.record.currentRunId.value;
      if run !in w.results then RetryOrFail(x, w)
      else if !OwnResult(x, run, w.results[run]) then Blocking(w, WorkerResultInvalid)
      else AfterResult(x, w, w.results[run])
  }

  function ApplyStep(x: Setup, w: World, review: Review): Config
    requires w.record.state.Reviewing?
  {
    if review.decision.Pass? then Move(w, ReviewPass)
    else if review.decision.AskUser? then Blocking(w, UserDecisionRequired)
    else match CanAutoRevise(x.config, w.record, review, PreviousReview(w))
      case Denied(reason) => Blocking(w, reason)
      case Allowed =>
        Point(w.(record := w.record.(revisionCount := w.record.revisionCount + 1, retryCount := 0)), ReviseDue)
  }

  function AskSupervisor(x: Setup, e: Env, w: World, result: WorkerResult): SupervisorOutcome {
    e.supervisor(x.task, result, PreviousReview(w), w.record.revisionCount)
  }

  function ReviewStep(x: Setup, e: Env, w: World): Config
    requires w.record.state.Reviewing?
  {
    if !HasRun(w) then Blocking(w, RunIdMissing)
    else
      var run := w.record.currentRunId.value;
      if run !in w.results then Blocking(w, WorkerResultMissing)
      else if !OwnResult(x, run, w.results[run]) then Blocking(w, WorkerResultInvalid)
      else if run in w.reviews then
        if !OwnReview(x, run, w.reviews[run]) then Blocking(w, SupervisorResponseInvalid)
        else ApplyStep(x, w, w.reviews[run])
      else match AskSupervisor(x, e, w, w.results[run])
        case Unavailable => Point(w, Thrown)
        case Invalid => Blocking(w, SupervisorResponseInvalid)
        case Replied(review) =>
          if !OwnReview(x, run, review) then Blocking(w, SupervisorResponseInvalid)
          else Point(w.(reviews := w.reviews[run := review]), ReviewKept)
  }

  function HeadStep(x: Setup, e: Env, w: World): Config {
    if Terminal(w.record.state) then Point(w, Head)
    else match CheckRuntimeBudget(x.config, x.task, w.record, e.now(w.record))
      case Denied(reason) => Blocking(w, reason)
      case Allowed =>
        match w.record.state
        case Created => Move(w, Validate)
        case Ready | RetryReady | RevisionReady => DispatchStep(x, w)
        case Dispatched => StartStep(w)
        case Running => RecoverStep(x, w)
        case ResultReady => Move(w, RequestReview)
        case Reviewing => ReviewStep(x, e, w)
  }

  // One durable write, one worker call, or nothing once the process has stopped.
  function Step(x: Setup, e: Env, c: Config): Config {
    var w := c.world;
    match c.pc
    case ValidateDue => Move(w, Validate)
    case Head => HeadStep(x, e, w)
    case Recover => RecoverStep(x, w)
    case PromptDue(revision) => PromptStep(x, w, revision)
    case ExecuteDue => ExecuteStep(x, e, w)
    case ResultDue(result) => ResultStep(x, w, result)
    case ResultKept => AfterResult(x, w, w.results[w.record.currentRunId.value])
    case RetryDue => Move(w, WorkerRetry)
    case FailDue => Move(w, WorkerFailed)
    case ReviewKept => ApplyStep(x, w, w.reviews[w.record.currentRunId.value])
    case ReviseDue => Move(w, ReviewRevise)
    case BlockDue => Move(w, Block)
    case Thrown => c
  }

  function StepN(x: Setup, e: Env, c: Config, n: nat): Config
    decreases n
  {
    if n == 0 then c else StepN(x, e, Step(x, e, c), n - 1)
  }

  // Where `resume` re-enters, whatever the crashed process was doing.
  function Resumed(w: World): Config {
    Point(w, if w.record.state.Running? then Recover else Head)
  }

  // The state right after `run` has saved its first record.
  function Initial(x: Setup, startedAt: int): Config {
    Point(World(TaskRecord(x.task.taskId, Created, None, None, 0, 0, 0, Some(startedAt), None, None),
                map[], map[], map[], []),
          ValidateDue)
  }

  // A life of a task: steps of the current process, and crashes after which a new process,
  // facing a possibly different environment, resumes.
  datatype Event = Tick | Crash(next: Env)

  datatype Life = Life(config: Config, env: Env)

  function React(x: Setup, l: Life, event: Event): Life {
    match event
    case Tick => Life(Step(x, l.env, l.config), l.env)
    case Crash(next) => Life(Resumed(l.config.world), next)
  }

  function Live(x: Setup, l: Life, events: seq<Event>): Life
    decreases |events|
  {
    if events == [] then l else Live(x, React(x, l, events[0]), events[1..])
  }
}
