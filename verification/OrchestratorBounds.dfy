// How often the worker can run, and how soon the loop ends.
module OrchestratorBounds {
  import opened Wrappers
  import opened StateMachine
  import opened Policy
  import opened DurableMachine

  // One run for the first attempt and one per retry, in each of the given number of rounds.
  function Runs(x: Setup, rounds: nat): nat {
    rounds * (x.config.maxWorkerRetries + 1)
  }

  lemma RunsNext(x: Setup, rounds: nat)
    ensures Runs(x, rounds + 1) == Runs(x, rounds) + x.config.maxWorkerRetries + 1
  {
  }

  lemma RunsMonotone(x: Setup, a: nat, b: nat)
    requires a <= b
    ensures Runs(x, a) <= Runs(x, b)
  {
  }

  // A dispatch uses up one run before the counters account for it.
  predicate Settled(c: Config) {
    var s := c.world.record.state;
    s.Created? || Dispatchable(s) || c.pc.RetryDue? || c.pc.ReviseDue?
  }

  predicate Bounded(x: Setup, c: Config) {
    var r := c.world.record;
    && r.revisionCount <= x.config.maxRevisions
    && r.retryCount <= x.config.maxWorkerRetries
    && r.runCount <= Runs(x, r.revisionCount) + r.retryCount + (if Settled(c) then 0 else 1)
    && (x.task.maxRuns.Some? && x.task.maxRuns.value != 0 ==> r.runCount <= x.task.maxRuns.value)
  }

  // What a step may do to the counters.
  ghost predicate Counts(x: Setup, c: Config, c': Config) {
    var r, r' := c.world.record, c'.world.record;
    || (r'.runCount == r.runCount && r'.revisionCount == r.revisionCount && r'.retryCount == r.retryCount
        && (Settled(c') ==> Settled(c)))
    || (r'.runCount == r.runCount + 1 && r'.revisionCount == r.revisionCount && r'.retryCount == r.retryCount
        && Settled(c) && !Settled(c') && !RunBudgetSpent(x, r))
    || (r'.runCount == r.runCount && r'.revisionCount == r.revisionCount && r'.retryCount == r.retryCount + 1
        && r.retryCount < x.config.maxWorkerRetries && !Settled(c) && Settled(c'))
    || (r'.runCount == r.runCount && r'.revisionCount == r.revisionCount + 1 && r'.retryCount == 0
        && r.revisionCount < x.config.maxRevisions && !Settled(c) && Settled(c'))
  }

  lemma StepCounts(x: Setup, e: Env, c: Config)
    ensures Counts(x, c, Step(x, e, c))
  {
    match c.pc {
      case Head => HeadCounts(x, e, c.world);
      case Recover => RecoverCounts(x, c);
      case ReviewKept => ApplyCounts(x, c);
      case _ =>
    }
  }

  lemma ApplyCounts(x: Setup, c: Config)
    requires c.world.record.state.Reviewing? && c.world.record.currentRunId.Some?
    requires c.world.record.currentRunId.value in c.world.reviews && !c.pc.ReviseDue?
    ensures Counts(x, c, ApplyStep(x, c.world, c.world.reviews[c.world.record.currentRunId.value]))
  {
  }

  lemma ReviewCounts(x: Setup, e: Env, w: World)
    requires w.record.state.Reviewing?
    ensures Counts(x, Point(w, Head), ReviewStep(x, e, w))
  {
    if HasRun(w) && w.record.currentRunId.value in w.reviews {
      ApplyCounts(x, Point(w, Head));
    }
  }

  lemma DispatchCounts(x: Setup, w: World)
    requires Dispatchable(w.record.state)
    ensures Counts(x, Point(w, Head), DispatchStep(x, w))
  {
  }

  lemma RecoverCounts(x: Setup, c: Config)
    requires c.world.record.state.Running? && (c.pc.Head? || c.pc.Recover?)
    ensures Counts(x, c, RecoverStep(x, c.world))
  {
  }

  lemma HeadCounts(x: Setup, e: Env, w: World)
    ensures Counts(x, Point(w, Head), HeadStep(x, e, w))
  {
    if Dispatchable(w.record.state) {
      DispatchCounts(x, w);
    } else if w.record.state.Reviewing? {
      ReviewCounts(x, e, w);
    } else if w.record.state.Running? {
      RecoverCounts(x, Point(w, Head));
    }
  }

  lemma StepBounded(x: Setup, e: Env, c: Config)
    requires Bounded(x, c)
    ensures Bounded(x, Step(x, e, c))
  {
    StepCounts(x, e, c);
    RunsNext(x, c.world.record.revisionCount);
  }

  lemma {:induction false} LifeBounded(x: Setup, l: Life, events: seq<Event>)
    requires Bounded(x, l.config)
    ensures Bounded(x, Live(x, l, events).config)
    decreases |events|
  {
    if events != [] {
      StepBounded(x, l.env, l.config);
      LifeBounded(x, React(x, l, events[0]), events[1..]);
    }
  }

  // However often the process crashes, and although retries restart with every revision and a crash
  // may count a retry or a revision twice, the worker is dispatched at most (R+1)(W+1) times.
  lemma RunBound(x: Setup, startedAt: int, e: Env, events: seq<Event>)
    ensures
      var r := Live(x, Life(Initial(x, startedAt), e), events).config.world.record;
      && r.runCount <= (x.config.maxRevisions + 1) * (x.config.maxWorkerRetries + 1)
      && (x.task.maxRuns.Some? && x.task.maxRuns.value != 0 ==> r.runCount <= x.task.maxRuns.value)
  {
    var l := Life(Initial(x, startedAt), e);
    LifeBounded(x, l, events);
    var r := Live(x, l, events).config.world.record;
    RunsMonotone(x, r.revisionCount, x.config.maxRevisions);
    RunsNext(x, x.config.maxRevisions);
  }

  /* Termination */

  // Loop iterations one revision round can take: two per failed attempt, four for the last.
  function Rounds(x: Setup, n: nat): nat {
    n * (2 * x.config.maxWorkerRetries + 4)
  }

  lemma RoundsNext(x: Setup, n: nat)
    ensures Rounds(x, n + 1) == Rounds(x, n) + 2 * x.config.maxWorkerRetries + 4
  {
  }

  function Left(limit: nat, used: nat): nat {
    if used <= limit then limit - used else 0
  }

  // Loop iterations within the current attempt, by state.
  function Phase(s: RunState): nat {
    match s
    case Created => 5
    case Ready | RetryReady | RevisionReady => 4
    case Dispatched | Running => 3
    case ResultReady => 2
    case Reviewing => 1
    case Completed | Blocked | Failed => 0
  }

  // An upper bound on the loop iterations still to come, read off the durable record.
  function Iterations(x: Setup, r: TaskRecord): nat {
    if Terminal(r.state) then 0
    else
      Phase(r.state) + 2 * Left(x.config.maxWorkerRetries, r.retryCount)
      + Rounds(x, Left(x.config.maxRevisions, r.revisionCount))
  }

  // The same bound in the middle of an iteration.
  function Potential(x: Setup, c: Config): nat {
    var i := Iterations(x, c.world.record);
    match c.pc
    case Head | PromptDue(_) => i
    case ValidateDue | Recover | ExecuteDue | ResultDue(_) | ResultKept | ReviewKept => if i == 0 then 0 else i - 1
    case RetryDue => i + 1
    case ReviseDue => i + 3
    case FailDue | BlockDue | Thrown => 0
  }

  function Writes(pc: Pc): nat {
    match pc
    case Head | Thrown => 0
    case ValidateDue | PromptDue(_) | RetryDue | FailDue | ReviseDue | BlockDue => 1
    case Recover | ResultKept | ReviewKept => 2
    case ResultDue(_) => 3
    case ExecuteDue => 4
  }

  function Rank(x: Setup, c: Config): nat {
    5 * Potential(x, c) + Writes(c.pc)
  }

  // A step that starts an iteration uses one up; no other step adds one.
  ghost predicate Descends(x: Setup, c: Config, c': Config) {
    if c.pc.Head? then Potential(x, c') < Potential(x, c)
    else Potential(x, c') <= Potential(x, c) && Rank(x, c') < Rank(x, c)
  }

  lemma ApplyDescends(x: Setup, c: Config, review: Review)
    requires c.world.record.state.Reviewing? && (c.pc.Head? || c.pc.ReviewKept?)
    ensures Descends(x, c, ApplyStep(x, c.world, review))
  {
    if c.world.record.revisionCount < x.config.maxRevisions {
      RoundsNext(x, x.config.maxRevisions - c.world.record.revisionCount - 1);
    }
  }

  lemma ReviewDescends(x: Setup, e: Env, w: World)
    requires w.record.state.Reviewing?
    ensures Descends(x, Point(w, Head), ReviewStep(x, e, w))
  {
    if HasRun(w) && w.record.currentRunId.value in w.reviews {
      ApplyDescends(x, Point(w, Head), w.reviews[w.record.currentRunId.value]);
    }
  }

  lemma DispatchDescends(x: Setup, w: World)
    requires Dispatchable(w.record.state)
    ensures Descends(x, Point(w, Head), DispatchStep(x, w))
  {
  }

  lemma RetryDescends(x: Setup, c: Config)
    requires c.world.record.state.Running? && (c.pc.Head? || c.pc.Recover? || c.pc.ResultKept?)
    ensures Descends(x, c, RetryOrFail(x, c.world))
  {
  }

  lemma RecoverDescends(x: Setup, c: Config)
    requires c.world.record.state.Running? && (c.pc.Head? || c.pc.Recover?)
    ensures Descends(x, c, RecoverStep(x, c.world))
  {
    RetryDescends(x, c);
  }

  lemma HeadDescends(x: Setup, e: Env, w: World)
    requires !Terminal(w.record.state)
    ensures Descends(x, Point(w, Head), HeadStep(x, e, w))
  {
    if CheckRuntimeBudget(x.config, x.task, w.record, e.now(w.record)).Allowed? {
      match w.record.state {
        case Ready | RetryReady | RevisionReady => DispatchDescends(x, w);
        case Running => RecoverDescends(x, Point(w, Head));
        case Reviewing => ReviewDescends(x, e, w);
        case _ =>
      }
    }
  }

  lemma WorkerDescends(x: Setup, e: Env, c: Config)
    requires c.pc.ExecuteDue? || c.pc.ResultDue? || c.pc.ResultKept?
    ensures Descends(x, c, Step(x, e, c))
  {
    if c.pc.ResultKept? { RetryDescends(x, c); }
  }

  lemma StepDescends(x: Setup, e: Env, c: Config)
    requires !Stopped(c)
    ensures Descends(x, c, Step(x, e, c))
    ensures Rank(x, Step(x, e, c)) < Rank(x, c)
  {
    match c.pc {
      case Head => HeadDescends(x, e, c.world);
      case Recover => RecoverDescends(x, c);
      case ExecuteDue | ResultDue(_) | ResultKept => WorkerDescends(x, e, c);
      case ReviewKept => ApplyDescends(x, c, c.world.reviews[c.world.record.currentRunId.value]);
      case _ =>
    }
  }

  // Where the current process ends up if it is left alone.
  function Final(x: Setup, e: Env, c: Config): (f: Config)
    ensures Stopped(f)
    decreases Rank(x, c)
  {
    if Stopped(c) then c
    else
      StepDescends(x, e, c);
      Final(x, e, Step(x, e, c))
  }

  // How many times it passes the top of the loop on the way.
  function LoopSteps(x: Setup, e: Env, c: Config): nat
    decreases Rank(x, c)
  {
    if Stopped(c) then 0
    else
      StepDescends(x, e, c);
      (if c.pc.Head? then 1 else 0) + LoopSteps(x, e, Step(x, e, c))
  }

  lemma {:induction false} LoopStepsBounded(x: Setup, e: Env, c: Config)
    ensures LoopSteps(x, e, c) <= Potential(x, c)
    decreases Rank(x, c)
  {
    if !Stopped(c) {
      StepDescends(x, e, c);
      LoopStepsBounded(x, e, Step(x, e, c));
    }
  }

  lemma RoundsFit(rounds: nat, w: nat)
    ensures rounds * (2 * w + 4) <= 4 * rounds * (w + 1)
  {
  }

  // Whatever worker and supervisor answer, a new task ends within (R+1)(2W+4) loop iterations from READY,
  // hence within 4(R+1)(W+1).
  lemma RunTerminates(x: Setup, e: Env, startedAt: int)
    ensures LoopSteps(x, e, Initial(x, startedAt)) <= (x.config.maxRevisions + 1) * (2 * x.config.maxWorkerRetries + 4)
    ensures LoopSteps(x, e, Initial(x, startedAt)) <= 4 * (x.config.maxRevisions + 1) * (x.config.maxWorkerRetries + 1)
  {
    LoopStepsBounded(x, e, Initial(x, startedAt));
    RoundsNext(x, x.config.maxRevisions);
    RoundsFit(x.config.maxRevisions + 1, x.config.maxWorkerRetries);
  }
}
