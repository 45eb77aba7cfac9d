// The orchestrator as it runs: an object over a durable store, proved step by step against the machine.
module OrchestratorObject {
  import opened Wrappers
  import opened StateMachine
  import opened Policy
  import opened DurableMachine
  import opened OrchestratorSafety
  import opened OrchestratorBounds
  import opened OrchestratorTransparency

  // The part of the state store that belongs to one task. Each method is one atomic write.
  class StateStore {
    var record: Option<TaskRecord>
    var prompts: map<Id, Prompt>
    var results: map<Id, WorkerResult>
    var reviews: map<Id, Review>
    ghost var executed: seq<Id>   // the worker calls the outside world has seen

    constructor ()
      ensures record.None? && prompts == map[] && results == map[] && reviews == map[] && executed == []
    {
      record, prompts, results, reviews, executed := None, map[], map[], map[], [];
    }

    ghost function Contents(): World
      requires record.Some?
      reads this
    {
      World(record.value, prompts, results, reviews, executed)
    }

    method SaveRecord(r: TaskRecord)
      modifies this`record
      ensures record == Some(r)
    {
      record := Some(r);
    }

    method SaveWorkerPrompt(run: Id, prompt: Prompt)
      modifies this`prompts
      ensures prompts == old(prompts)[run := prompt]
    {
      prompts := prompts[run := prompt];
    }

    method SaveWorkerResult(run: Id, result: WorkerResult)
      modifies this`results
      ensures results == old(results)[run := result]
    {
      results := results[run := result];
    }

    method SaveReview(run: Id, review: Review)
      modifies this`reviews
      ensures reviews == old(reviews)[run := review]
    {
      reviews := reviews[run := review];
    }
  }

  datatype RunError = SupervisorUnavailable | NotPersisted

  type RunOutcome = Result<TaskRecord, RunError>

  ghost predicate Stepwise(x: Setup, e: Env, trace: seq<Config>) {
    |trace| > 0 && forall i :: 0 <= i < |trace| - 1 ==> trace[i + 1] == Step(x, e, trace[i])
  }

  lemma TurnDescends(x: Setup, e: Env, c: Config)
    requires !Stopped(c)
    ensures
      var next := NextHead(x, e, Step(x, e, c));
      Rank(x, next) < Rank(x, c) && Final(x, e, next) == Final(x, e, c)
  {
    StepDescends(x, e, c);
    NextHeadDescends(x, e, Step(x, e, c));
  }

  class Orchestrator {
    const setup: Setup
    const env: Env
    const store: StateStore
    // Every durable state this process has gone through, with what it still had to do there.
    ghost var trace: seq<Config>

    constructor (setup: Setup, env: Env, store: StateStore)
      ensures this.setup == setup && this.env == env && this.store == store
    {
      this.setup, this.env, this.store, this.trace := setup, env, store, [];
    }

    // Consecutive durable states are one machine step apart.
    ghost predicate Legal()
      reads this
    {
      Stepwise(setup, env, trace)
    }

    ghost function Here(): Config
      requires |trace| > 0
      reads this
    {
      trace[|trace| - 1]
    }

    ghost predicate Valid()
      reads this, store
    {
      Legal() && store.record.Some? && Here().world == store.Contents()
    }

    // The state the machine must reach next, given that only the record changes.
    ghost predicate Due(record: TaskRecord, next: Pc)
      reads this, store
    {
      Valid() && Step(setup, env, Here()) == Point(store.Contents().(record := record), next)
    }

    // Enter the durable state just written into the trace.
    ghost method Note(next: Pc)
      requires Legal() && store.record.Some?
      requires Step(setup, env, Here()) == Point(store.Contents(), next)
      modifies this`trace
      ensures trace == old(trace) + [Point(store.Contents(), next)] && Valid()
    {
      trace := trace + [Step(setup, env, Here())];
    }

    method Move(record: TaskRecord, event: StateEvent, ghost next: Pc) returns (moved: TaskRecord)
      requires Transition(record.state, event).Some? && Due(Moved(record, event), next)
      modifies this`trace, store`record
      ensures Valid() && store.record == Some(moved) && moved == Moved(record, event)
      ensures trace == old(trace) + [Point(store.Contents(), next)]
    {
      moved := record.(state := Transition(record.state, event).value);
      store.SaveRecord(moved);
      Note(next);
    }

    method Block(record: TaskRecord, reason: Reason) returns (next: TaskRecord)
      requires Due(record.(blockedReason := Some(reason)), BlockDue)
      requires store.record == Some(record) && !Terminal(record.state)
      modifies this`trace, store`record
      ensures Valid() && old(trace) <= trace && Here().pc.Head? && store.record == Some(next)
      ensures Here() == NextHead(setup, env, Step(setup, env, old(Here())))
    {
      var blocked := record.(blockedReason := Some(reason));
      store.SaveRecord(blocked);
      Note(BlockDue);
      next := Move(blocked, StateEvent.Block, Head);
    }

    method PrepareDispatch(record: TaskRecord) returns (next: TaskRecord)
      requires Valid() && store.record == Some(record) && Here().pc.Head? && Dispatchable(record.state)
      requires WithinBudget(record).Allowed?
      modifies this`trace, store`record, store`prompts
      ensures Valid() && old(trace) <= trace && Here().pc.Head? && store.record == Some(next)
      ensures Here() == NextHead(setup, env, Step(setup, env, old(Here())))
    {
      if setup.task.maxRuns.Some? && setup.task.maxRuns.value != 0 && record.runCount >= setup.task.maxRuns.value {
        next := Block(record, RunBudgetExceeded);
        return;
      }
      var previousRunId := record.currentRunId;
      var run := setup.ids(record.runCount);
      next := record.(previousRunId := previousRunId, currentRunId := Some(run), runCount := record.runCount + 1);
      var revision := record.state.RevisionReady? && previousRunId.Some?;
      next := Move(next, Dispatch, PromptDue(revision));
      next := PreparePrompt(next, run, revision);
    }

    // The second half of prepareDispatch: compile and save the prompt.
    method PreparePrompt(record: TaskRecord, run: Id, revision: bool) returns (next: TaskRecord)
      requires Valid() && store.record == Some(record) && record.currentRunId == Some(run)
      requires Here().pc == PromptDue(revision)
      modifies this`trace, store`record, store`prompts
      ensures Valid() && old(trace) <= trace && Here().pc.Head? && store.record == Some(next)
      ensures Here() == NextHead(setup, env, old(Here()))
    {
      NextHeadAfterStep(setup, env, Here());
      next := record;
      var prompt := WorkerPrompt(run);
      if revision {
        var previous := record.previousRunId.value;
        if previous !in store.results || previous !in store.reviews {
          next := Block(next, RevisionContextMissing);
          return;
        }
        if !OwnResult(setup, previous, store.results[previous]) {
          next := Block(next, WorkerResultInvalid);
          return;
        }
        if !OwnReview(setup, previous, store.reviews[previous]) {
          next := Block(next, SupervisorResponseInvalid);
          return;
        }
        prompt := RevisionPrompt(run, store.results[previous], store.reviews[previous]);
      }
      store.SaveWorkerPrompt(run, prompt);
      Note(Head);
    }

    // Bump the retry counter and move to RETRY_READY, or record the failure and move to FAILED.
    // Written out at the end of both executeDispatched and recoverInterruptedFailure.
    method RecoverInterruptedFailure(record: TaskRecord) returns (next: TaskRecord)
      requires Valid() && store.record == Some(record) && record.state.Running?
      requires Step(setup, env, Here()) == RetryOrFail(setup, store.Contents())
      modifies this`trace, store`record
      ensures Valid() && old(trace) <= trace && Here().pc.Head? && store.record == Some(next)
      ensures Here() == NextHead(setup, env, Step(setup, env, old(Here())))
    {
      var retry := ShouldRetryWorker(setup.config, record.retryCount);
      if retry.Allowed? {
        var bumped := record.(retryCount := record.retryCount + 1);
        store.SaveRecord(bumped);
        Note(RetryDue);
        next := Move(bumped, WorkerRetry, Head);
      } else {
        var failed := record.(failedReason := Some(retry.reason));
        store.SaveRecord(failed);
        Note(FailDue);
        next := Move(failed, WorkerFailed, Head);
      }
    }

    // The call leaves a mark in the outside world whether or not its answer is ever saved.
    method CallWorker(run: Id, prompt: Prompt, record: TaskRecord) returns (outcome: WorkerOutcome)
      modifies store`executed
      ensures store.executed == old(store.executed) + [run]
      ensures outcome == env.worker(setup.task, run, prompt, record.revisionCount, record.retryCount)
    {
      outcome := env.worker(setup.task, run, prompt, record.revisionCount, record.retryCount);
      store.executed := store.executed + [run];
    }

    method ExecuteDispatched(record: TaskRecord) returns (next: TaskRecord)
      requires Valid() && store.record == Some(record) && Here().pc.Head? && record.state.Dispatched?
      requires WithinBudget(record).Allowed?
      modifies this`trace, store`record, store`results, store`executed
      ensures Valid() && old(trace) <= trace && Here().pc.Head? && store.record == Some(next)
      ensures Here() == NextHead(setup, env, Step(setup, env, old(Here())))
    {
      if record.currentRunId.None? {
        next := Block(record, RunIdMissing);
        return;
      }
      var run := record.currentRunId.value;
      if run !in store.prompts {
        next := Block(record, WorkerPromptMissing);
        return;
      }
      var running := Move(record, Start, ExecuteDue);
      var outcome := CallWorker(run, store.prompts[run], running);
      var result;
      match outcome {
        case Returned(answer) => result := answer;
        case Threw(message) => result := WorkerResult(run, setup.task.taskId, Broken, message);
      }
      Note(ResultDue(result));
      next := SettleResult(running, run, result);
    }

    // The second half of executeDispatched: file the worker's answer and move on.
    method SettleResult(running: TaskRecord, run: Id, result: WorkerResult) returns (next: TaskRecord)
      requires Valid() && store.record == Some(running) && running.currentRunId == Some(run)
      requires Here().pc == ResultDue(result)
      modifies this`trace, store`record, store`results
      ensures Valid() && old(trace) <= trace && Here().pc.Head? && store.record == Some(next)
      ensures Here() == NextHead(setup, env, old(Here()))
    {
      NextHeadAfterStep(setup, env, Here());
      if !OwnResult(setup, run, result) {
        next := Block(running, WorkerResultInvalid);
        return;
      }
      store.SaveWorkerResult(run, result);
      Note(ResultKept);
      NextHeadAfterStep(setup, env, Here());
      if result.status.Succeeded? {
        next := Move(running, WorkerSucceeded, Head);
      } else {
        next := RecoverInterruptedFailure(running);
      }
    }

    method ApplyReview(record: TaskRecord, review: Review) returns (next: TaskRecord)
      requires Valid() && store.record == Some(record) && record.state.Reviewing?
      requires Step(setup, env, Here()) == ApplyStep(setup, store.Contents(), review)
      modifies this`trace, store`record
      ensures Valid() && old(trace) <= trace && Here().pc.Head? && store.record == Some(next)
      ensures Here() == NextHead(setup, env, Step(setup, env, old(Here())))
    {
      if review.decision.Pass? {
        next := Move(record, ReviewPass, Head);
        return;
      }
      if review.decision.AskUser? {
        next := Block(record, UserDecisionRequired);
        return;
      }
      var previousReview := LoadPreviousReview(record);
      var decision := CanAutoRevise(setup.config, record, review, previousReview);
      if decision.Denied? {
        next := Block(record, decision.reason);
        return;
      }
      var revised := record.(revisionCount := record.revisionCount + 1, retryCount := 0);
      store.SaveRecord(revised);
      Note(ReviseDue);
      next := Move(revised, ReviewRevise, Head);
    }

    method LoadPreviousReview(record: TaskRecord) returns (review: Option<Review>)
      requires store.record == Some(record)
      ensures review == PreviousReview(store.Contents())
    {
      review := None;
      if record.previousRunId.Some? && record.previousRunId.value in store.reviews {
        review := Some(store.reviews[record.previousRunId.value]);
      }
    }

    method ReviewCurrent(record: TaskRecord) returns (r: RunOutcome)
      requires Valid() && store.record == Some(record) && Here().pc.Head? && record.state.Reviewing?
      requires WithinBudget(record).Allowed?
      modifies this`trace, store`record, store`reviews
      ensures Valid() && old(trace) <= trace
      ensures r.Ok? ==> Here().pc.Head? && store.record == Some(r.value)
      ensures r.Err? ==> r.error.SupervisorUnavailable? && Here().pc.Thrown?
      ensures Here() == NextHead(setup, env, Step(setup, env, old(Here())))
    {
      var next;
      if record.currentRunId.None? {
        next := Block(record, RunIdMissing);
        return Ok(next);
      }
      var run := record.currentRunId.value;
      if run !in store.results {
        next := Block(record, WorkerResultMissing);
        return Ok(next);
      }
      if !OwnResult(setup, run, store.results[run]) {
        next := Block(record, WorkerResultInvalid);
        return Ok(next);
      }
      var review;
      if run in store.reviews {
        review := store.reviews[run];
      } else {
        var previousReview := LoadPreviousReview(record);
        var outcome := env.supervisor(setup.task, store.results[run], previousReview, record.revisionCount);
        match outcome {
          case Unavailable =>
            Note(Thrown);
            return Err(SupervisorUnavailable);
          case Invalid =>
            next := Block(record, SupervisorResponseInvalid);
            return Ok(next);
          case Replied(answer) =>
            review := answer;
        }
      }
      if !OwnReview(setup, run, review) {
        next := Block(record, SupervisorResponseInvalid);
        return Ok(next);
      }
      if run !in store.reviews {
        store.SaveReview(run, review);
        Note(ReviewKept);
      }
      next := ApplyReview(record, review);
      return Ok(next);
    }

    // One turn of the loop, short of resuming a RUNNING task.
    method Turn(record: TaskRecord) returns (r: RunOutcome)
      requires Valid() && store.record == Some(record) && Here().pc.Head? && !Terminal(record.state)
      requires record.state.Running? ==> WithinBudget(record).Denied?
      modifies this`trace, store
      ensures Valid() && old(trace) <= trace
      ensures r.Ok? ==> Here().pc.Head? && store.record == Some(r.value)
      ensures r.Err? ==> r.error.SupervisorUnavailable? && Here().pc.Thrown?
      ensures Here() == NextHead(setup, env, Step(setup, env, old(Here())))
    {
      var next;
      var budget := WithinBudget(record);
      if budget.Denied? {
        next := Block(record, budget.reason);
        return Ok(next);
      }
      match record.state {
        case Created => next := Move(record, Validate, Head);
        case Ready | RetryReady | RevisionReady => next := PrepareDispatch(record);
        case Dispatched => next := ExecuteDispatched(record);
        case ResultReady => next := Move(record, RequestReview, Head);
        case Reviewing =>
          r := ReviewCurrent(record);
          return;
      }
      r := Ok(next);
    }

    function WithinBudget(record: TaskRecord): Decision {
      CheckRuntimeBudget(setup.config, setup.task, record, env.now(record))
    }

    method Advance(initial: TaskRecord) returns (r: RunOutcome)
      requires Valid() && store.record == Some(initial) && Here().pc.Head?
      modifies this`trace, store
      ensures Valid() && old(trace) <= trace
      ensures Here() == Final(setup, env, old(Here()))
      ensures r == if Here().pc.Thrown? then Err(SupervisorUnavailable) else Ok(store.record.value)
      decreases Rank(setup, Here()), 1
    {
      var record := initial;
      while !Terminal(record.state)
        invariant Valid() && old(trace) <= trace && store.record == Some(record) && Here().pc.Head?
        invariant Final(setup, env, Here()) == Final(setup, env, old(Here()))
        invariant Rank(setup, Here()) <= Rank(setup, old(Here()))
        decreases Rank(setup, Here())
      {
        if record.state.Running? && WithinBudget(record).Allowed? {
          r := ResumeRunning(record);
          return;
        }
        TurnDescends(setup, env, Here());
        var turned := Turn(record);
        if turned.Err? { return turned; }
        record := turned.value;
      }
      r := Ok(record);
    }

    // The first half of resumeRunning: settle the interrupted run by its filed result, if there is one.
    method SettleInterrupted(record: TaskRecord) returns (next: TaskRecord)
      requires Valid() && store.record == Some(record) && record.state.Running?
      requires Step(setup, env, Here()) == RecoverStep(setup, store.Contents())
      modifies this`trace, store`record
      ensures Valid() && old(trace) <= trace && Here().pc.Head? && store.record == Some(next)
      ensures Here() == NextHead(setup, env, Step(setup, env, old(Here())))
    {
      if record.currentRunId.None? {
        next := Block(record, RunIdMissing);
        return;
      }
      var run := record.currentRunId.value;
      if run in store.results {
        var result := store.results[run];
        if !OwnResult(setup, run, result) {
          next := Block(record, WorkerResultInvalid);
          return;
        }
        if result.status.Succeeded? {
          next := Move(record, WorkerSucceeded, Head);
          return;
        }
      }
      next := RecoverInterruptedFailure(record);
    }

    method ResumeRunning(record: TaskRecord) returns (r: RunOutcome)
      requires Valid() && store.record == Some(record) && record.state.Running?
      requires !Stopped(Here()) && Step(setup, env, Here()) == RecoverStep(setup, store.Contents())
      modifies this`trace, store
      ensures Valid() && old(trace) <= trace
      ensures Here() == Final(setup, env, old(Here()))
      ensures r == if Here().pc.Thrown? then Err(SupervisorUnavailable) else Ok(store.record.value)
      decreases Rank(setup, Here()), 0
    {
      TurnDescends(setup, env, Here());
      var next := SettleInterrupted(record);
      if next.state.Blocked? { return Ok(next); }
      r := Advance(next);
    }

    // `run`: save the first record, validate, and go.
    method Run(startedAt: int) returns (r: RunOutcome)
      modifies this`trace, store
      ensures Valid()
      ensures trace[0] == Point(World(Initial(setup, startedAt).world.record, old(store.prompts), old(store.results),
                                      old(store.reviews), old(store.executed)), ValidateDue)
      ensures Here() == Final(setup, env, trace[0])
      ensures r == if Here().pc.Thrown? then Err(SupervisorUnavailable) else Ok(store.record.value)
    {
      var record := TaskRecord(setup.task.taskId, Created, None, None, 0, 0, 0, Some(startedAt), None, None);
      store.SaveRecord(record);
      trace := [Point(store.Contents(), ValidateDue)];
      record := Move(record, Validate, Head);
      r := Advance(record);
    }

    // `resume`: pick up whatever a previous process left behind.
    method Resume() returns (r: RunOutcome)
      modifies this`trace, store
      ensures old(store.record).None? ==> r == Err(NotPersisted) && unchanged(store)
      ensures old(store.record).Some? ==>
        && Valid() && trace[0] == Resumed(old(store.Contents()))
        && Here() == Final(setup, env, trace[0])
        && r == (if Here().pc.Thrown? then Err(SupervisorUnavailable) else Ok(store.record.value))
    {
      if store.record.None? { return Err(NotPersisted); }
      var record := store.record.value;
      trace := [Resumed(store.Contents())];
      if Terminal(record.state) { return Ok(record); }
      if record.state.Running? {
        r := ResumeRunning(record);
      } else {
        r := Advance(record);
      }
    }
  }

  /* What the objects do is a life of the machine, so what holds of every life holds of them */

  // A process: what it faces, and the durable states it went through until it returned or was killed.
  datatype Process = Process(env: Env, trace: seq<Config>)

  ghost function LastOf(p: Process): Config
    requires p.trace != []
  {
    p.trace[|p.trace| - 1]
  }

  // `run` in an empty store, then any number of `resume`s, each in what the process before it left.
  ghost predicate Succession(x: Setup, startedAt: int, processes: seq<Process>) {
    && processes != []
    && (forall i :: 0 <= i < |processes| ==> Stepwise(x, processes[i].env, processes[i].trace))
    && processes[0].trace[0] == Initial(x, startedAt)
    && forall i :: 0 < i < |processes| ==> processes[i].trace[0] == Resumed(LastOf(processes[i - 1]).world)
  }

  lemma {:induction false} LiveConcat(x: Setup, l: Life, a: seq<Event>, b: seq<Event>)
    ensures Live(x, l, a + b) == Live(x, Live(x, l, a), b)
    decreases |a|
  {
    if a == [] {
      assert a + b == b;
    } else {
      assert (a + b)[0] == a[0] && (a + b)[1..] == a[1..] + b;
      LiveConcat(x, React(x, l, a[0]), a[1..], b);
    }
  }

  lemma {:induction false} TraceIsLife(x: Setup, p: Process) returns (events: seq<Event>)
    requires Stepwise(x, p.env, p.trace)
    ensures Live(x, Life(p.trace[0], p.env), events) == Life(LastOf(p), p.env)
    decreases |p.trace|
  {
    events := [];
    if |p.trace| > 1 {
      var rest := p.trace[1..];
      assert p.trace[0 + 1] == Step(x, p.env, p.trace[0]);
      forall i | 0 <= i < |rest| - 1 ensures rest[i + 1] == Step(x, p.env, rest[i]) {
        assert p.trace[i + 1 + 1] == Step(x, p.env, p.trace[i + 1]);
      }
      var later := TraceIsLife(x, Process(p.env, rest));
      events := [Tick] + later;
      assert events[1..] == later;
    }
  }

  lemma {:induction false} SuccessionIsLife(x: Setup, startedAt: int, processes: seq<Process>)
    returns (events: seq<Event>)
    requires Succession(x, startedAt, processes)
    ensures
      var last := processes[|processes| - 1];
      Live(x, Life(Initial(x, startedAt), processes[0].env), events) == Life(LastOf(last), last.env)
    decreases |processes|
  {
    var last := processes[|processes| - 1];
    var here := TraceIsLife(x, last);
    if |processes| == 1 {
      events := here;
    } else {
      var earlier := processes[..|processes| - 1];
      var before := SuccessionIsLife(x, startedAt, earlier);
      var start := Life(Initial(x, startedAt), processes[0].env);
      events := before + ([Crash(last.env)] + here);
      LiveConcat(x, start, before, [Crash(last.env)] + here);
      assert ([Crash(last.env)] + here)[1..] == here;
    }
  }

  // So the durable state any succession of runs and kills ends in is safe, and the run bound holds of it.
  lemma SuccessionSafe(x: Setup, startedAt: int, processes: seq<Process>)
    requires FreshIds(x) && Succession(x, startedAt, processes)
    ensures
      var c := LastOf(processes[|processes| - 1]);
      && Safe(x, c)
      && c.world.record.runCount <= (x.config.maxRevisions + 1) * (x.config.maxWorkerRetries + 1)
  {
    var events := SuccessionIsLife(x, startedAt, processes);
    var e := processes[0].env;
    InitialSafe(x, startedAt);
    LifeSafe(x, Life(Initial(x, startedAt), e), events);
    RunBound(x, startedAt, e, events);
  }
}
