// When a crash leaves no trace. Worker and supervisor answer the same arguments the same way,
// run ids are indexed by runCount, and no wall-clock limit is set.
module OrchestratorTransparency {
  import opened Wrappers
  import opened StateMachine
  import opened Policy
  import opened DurableMachine
  import opened OrchestratorSafety
  import opened OrchestratorBounds

  predicate NoWallClock(x: Setup) {
    WallClockLimit(x.config, x.task).None?
  }

  // The three windows: DISPATCHED with the prompt still to be written, RUNNING with the result still to be
  // written, and a counter saved ahead of its move.
  predicate InWindow(c: Config) {
    match c.pc
    case PromptDue(_) => true
    case ExecuteDue | ResultDue(_) => true
    case BlockDue => c.world.record.state.Running?
    case RetryDue | ReviseDue => true
    case ValidateDue | Head | Recover | ResultKept | FailDue | ReviewKept | Thrown => false
  }

  // Redoing the interrupted decision writes what is already written.
  ghost predicate Redoable(x: Setup, e: Env, c: Config) {
    match c.pc
    case BlockDue => !c.world.record.state.Running? ==> HeadStep(x, e, c.world) == c
    case FailDue => RecoverStep(x, c.world) == c
    case Thrown => HeadStep(x, e, c.world) == c
    case _ => true
  }

  lemma RetryRedoable(x: Setup, e: Env, w: World)
    requires w.record.state.Running? && !HasCompletedResult(w) && HasRun(w) && FiledHere(x, w)
    ensures Redoable(x, e, RetryOrFail(x, w))
  {
  }

  lemma ApplyRedoable(x: Setup, e: Env, w: World)
    requires NoWallClock(x) && Certified(w) && FiledHere(x, w)
    requires w.record.state.Reviewing? && w.record.currentRunId.value in w.reviews
    ensures Redoable(x, e, ApplyStep(x, w, w.reviews[w.record.currentRunId.value]))
  {
  }

  lemma ReviewRedoable(x: Setup, e: Env, w: World)
    requires NoWallClock(x) && Certified(w) && FiledHere(x, w) && w.record.state.Reviewing?
    ensures Redoable(x, e, ReviewStep(x, e, w))
  {
    if w.record.currentRunId.value in w.reviews { ApplyRedoable(x, e, w); }
  }

  lemma HeadRedoable(x: Setup, e: Env, w: World)
    requires NoWallClock(x) && Safe(x, Point(w, Head)) && FiledHere(x, w)
    ensures Redoable(x, e, HeadStep(x, e, w))
  {
    if w.record.state.Reviewing? { ReviewRedoable(x, e, w); }
  }

  lemma StepKeepsRedoable(x: Setup, e: Env, c: Config)
    requires FreshIds(x) && NoWallClock(x) && Safe(x, c) && Redoable(x, e, c)
    ensures Redoable(x, e, Step(x, e, c))
  {
    var w := c.world;
    FiledIsFiledHere(x, w);
    match c.pc {
      case Head => HeadRedoable(x, e, w);
      case Recover => if !HasCompletedResult(w) { RetryRedoable(x, e, w); }
      case ResultKept => if !HasCompletedResult(w) { RetryRedoable(x, e, w); }
      case PromptDue(_) => PromptSteady(x, c);
      case ReviewKept => ApplyRedoable(x, e, w);
      case _ =>
    }
  }

  // Outside the windows the resumed process is where the crashed one was, or one step behind.
  lemma ResumeCatchesUp(x: Setup, e: Env, c: Config)
    requires FreshIds(x) && NoWallClock(x) && Safe(x, c) && Redoable(x, e, c) && !InWindow(c)
    ensures
      || Resumed(c.world) == c
      || (Step(x, e, Resumed(c.world)) == c && !Stopped(Resumed(c.world)))
      || (Step(x, e, Resumed(c.world)) == Step(x, e, c) && !Stopped(Resumed(c.world)) && !Stopped(c))
      || (c.pc.Thrown? && Step(x, e, Resumed(c.world)) == c)
  {
    FiledIsFiledHere(x, c.world);
  }

  lemma CrashKeepsFinal(x: Setup, e: Env, c: Config)
    requires FreshIds(x) && NoWallClock(x) && Safe(x, c) && Redoable(x, e, c) && !InWindow(c)
    ensures Final(x, e, Resumed(c.world)) == Final(x, e, c)
  {
    ResumeCatchesUp(x, e, c);
  }

  // Crashes and resumes of one deterministic environment, none of them inside a window.
  ghost predicate Quiet(x: Setup, l: Life, events: seq<Event>)
    decreases |events|
  {
    events == [] ||
    (&& (events[0].Crash? ==> events[0].next == l.env && !InWindow(l.config))
     && Quiet(x, React(x, l, events[0]), events[1..]))
  }

  // Any number of crashes outside the windows ends in the same record, prompts, results, reviews and
  // worker calls as the uninterrupted run.
  lemma {:induction false} CrashesInvisible(x: Setup, l: Life, events: seq<Event>)
    requires FreshIds(x) && NoWallClock(x) && Safe(x, l.config) && Redoable(x, l.env, l.config)
    requires Quiet(x, l, events)
    ensures Live(x, l, events).env == l.env
    ensures Final(x, l.env, Live(x, l, events).config) == Final(x, l.env, l.config)
    decreases |events|
  {
    if events != [] {
      var l' := React(x, l, events[0]);
      if events[0].Tick? {
        StepKeepsRedoable(x, l.env, l.config);
        StepKeepsSafe(x, l.env, l.config);
      } else {
        CrashKeepsFinal(x, l.env, l.config);
        CrashKeepsSafe(x, l.config);
      }
      CrashesInvisible(x, l', events[1..]);
    }
  }

  /* The windows are real */

  // The next loop head the uninterrupted process comes to, or the point where it gives up.
  function NextHead(x: Setup, e: Env, c: Config): Config
    decreases Rank(x, c)
  {
    if c.pc.Head? || c.pc.Thrown? then c
    else
      StepDescends(x, e, c);
      NextHead(x, e, Step(x, e, c))
  }

  lemma {:induction false} NextHeadDescends(x: Setup, e: Env, c: Config)
    ensures NextHead(x, e, c).pc.Head? || NextHead(x, e, c).pc.Thrown?
    ensures Rank(x, NextHead(x, e, c)) <= Rank(x, c)
    ensures Final(x, e, NextHead(x, e, c)) == Final(x, e, c)
    decreases Rank(x, c)
  {
    if !c.pc.Head? && !c.pc.Thrown? {
      StepDescends(x, e, c);
      NextHeadDescends(x, e, Step(x, e, c));
    }
  }

  ghost predicate Rejoins(x: Setup, e: Env, c: Config) {
    exists n: nat :: StepN(x, e, Resumed(c.world), n) == NextHead(x, e, c)
  }

  // The configurations a process resumed after a crash in RUNNING passes through.
  ghost predicate ApartRunning(w: World, d: Config) {
    var r, s := w.record, d.world.record;
    || s.runCount > r.runCount
    || (&& s.runCount == r.runCount && s.currentRunId == r.currentRunId && d.world.results == w.results
        && match d.pc
           case Recover => s.retryCount == r.retryCount && !HasCompletedResult(d.world)
           case RetryDue => s.retryCount == r.retryCount + 1
           case FailDue => true
           case BlockDue =>
             && s.state.RetryReady? && s.retryCount == r.retryCount + 1
             && s.blockedReason == Some(RunBudgetExceeded)
           case Head =>
             || s.state.Failed?
             || (s.retryCount == r.retryCount + 1
                 && (s.state.RetryReady? || (s.state.Blocked? && s.blockedReason == Some(RunBudgetExceeded))))
           case _ => false)
  }

  ghost predicate ApartDispatched(w: World, d: Config) {
    && d.world.prompts == w.prompts && d.world.record.currentRunId == w.record.currentRunId
    && (|| (d.pc.Head? && d.world.record.state.Dispatched?)
        || (d.pc.BlockDue? && d.world.record.state.Dispatched?)
        || (d.pc.Head? && d.world.record.state.Blocked?))
  }

  ghost predicate ApartReviewing(w: World, d: Config) {
    var r, s := w.record, d.world.record;
    || s.revisionCount > r.revisionCount
    || (&& s.revisionCount == r.revisionCount && HasReview(d.world, Revise)
        && (|| (d.pc.Head? && (s.state.Reviewing? || s.state.Blocked?))
            || (d.pc.BlockDue? && s.state.Reviewing?)))
  }

  ghost predicate Apart(c: Config, d: Config) {
    match c.world.record.state
    case Running => ApartRunning(c.world, d)
    case Dispatched => ApartDispatched(c.world, d)
    case Reviewing => ApartReviewing(c.world, d)
    case _ => false
  }

  lemma ApartAfterHead(x: Setup, e: Env, w: World, d: Config)
    requires NoWallClock(x) && ApartRunning(w, d) && d.pc.Head? && d.world.record.runCount == w.record.runCount
    ensures ApartRunning(w, Step(x, e, d))
  {
  }

  lemma ApartAfterRecover(x: Setup, w: World, d: Config)
    requires ApartRunning(w, d) && d.pc.Recover? && d.world.record.runCount == w.record.runCount
    requires HasRun(d.world) && FiledHere(x, d.world)
    ensures ApartRunning(w, RecoverStep(x, d.world))
  {
  }

  lemma ApartAfterRunning(x: Setup, e: Env, w: World, d: Config)
    requires FreshIds(x) && NoWallClock(x) && Safe(x, d) && ApartRunning(w, d)
    ensures ApartRunning(w, Step(x, e, d))
  {
    if d.world.record.runCount > w.record.runCount {
      StepCounts(x, e, d);
    } else if d.pc.Head? {
      ApartAfterHead(x, e, w, d);
    } else if d.pc.Recover? {
      FiledIsFiledHere(x, d.world);
      ApartAfterRecover(x, w, d);
    }
  }

  lemma ApartAfterDispatched(x: Setup, e: Env, w: World, d: Config)
    requires NoWallClock(x) && ApartDispatched(w, d) && HasRun(w) && w.record.currentRunId.value !in w.prompts
    ensures ApartDispatched(w, Step(x, e, d))
  {
  }

  lemma ApartAfterReviewing(x: Setup, e: Env, w: World, d: Config)
    requires FreshIds(x) && NoWallClock(x) && Safe(x, d) && ApartReviewing(w, d)
    ensures ApartReviewing(w, Step(x, e, d))
  {
    StepCounts(x, e, d);
    FiledIsFiledHere(x, d.world);
  }

  lemma {:induction false} StaysApart(x: Setup, e: Env, c: Config, d: Config, n: nat)
    requires FreshIds(x) && NoWallClock(x) && Safe(x, c) && Safe(x, d) && InWindow(c) && Apart(c, d)
    ensures Apart(c, StepN(x, e, d, n))
    decreases n
  {
    if n > 0 {
      StepKeepsSafe(x, e, d);
      match c.world.record.state {
        case Running => ApartAfterRunning(x, e, c.world, d);
        case Dispatched => ApartAfterDispatched(x, e, c.world, d);
        case Reviewing => ApartAfterReviewing(x, e, c.world, d);
      }
      StaysApart(x, e, c, Step(x, e, d), n - 1);
    }
  }

  lemma ResumeApart(x: Setup, e: Env, c: Config)
    requires Safe(x, c) && InWindow(c)
    ensures Apart(c, Resumed(c.world))
  {
  }

  lemma NextHeadAfterStep(x: Setup, e: Env, c: Config)
    requires !c.pc.Head? && !c.pc.Thrown?
    ensures NextHead(x, e, c) == NextHead(x, e, Step(x, e, c))
  {
  }

  // Once the result is filed, the run never looks like one resumed without it.
  lemma FiledNotApart(x: Setup, e: Env, w: World, c: Config)
    requires c.pc.ResultKept? && c.world.results != w.results
    requires c.world.record.runCount == w.record.runCount
    ensures !ApartRunning(w, NextHead(x, e, c))
  {
    NextHeadAfterStep(x, e, c);
    var d := Step(x, e, c);
    if !d.pc.Head? { NextHeadAfterStep(x, e, d); }
  }

  lemma ResultNotApart(x: Setup, e: Env, w: World, c: Config)
    requires c.pc.ResultDue? && c.world.results == w.results && c.world.record == w.record
    requires c.world.record.currentRunId.value !in w.results
    ensures !ApartRunning(w, NextHead(x, e, c))
  {
    NextHeadAfterStep(x, e, c);
    var d := Step(x, e, c);
    if d.pc.ResultKept? {
      FiledNotApart(x, e, w, d);
    } else {
      NextHeadAfterStep(x, e, d);
    }
  }

  lemma UninterruptedNotApart(x: Setup, e: Env, c: Config)
    requires FreshIds(x) && Safe(x, c) && InWindow(c)
    ensures !Apart(c, NextHead(x, e, c))
  {
    FiledIsFiledHere(x, c.world);
    NextHeadAfterStep(x, e, c);
    match c.pc {
      case ExecuteDue => ResultNotApart(x, e, c.world, Step(x, e, c));
      case ResultDue(_) => ResultNotApart(x, e, c.world, c);
      case PromptDue(_) => PromptSteady(x, c);
      case _ =>
    }
  }

  lemma ResumeRejoins(x: Setup, e: Env, c: Config)
    requires FreshIds(x) && NoWallClock(x) && Safe(x, c) && Redoable(x, e, c) && !InWindow(c)
    ensures Rejoins(x, e, c)
  {
    var d := Resumed(c.world);
    ResumeCatchesUp(x, e, c);
    if d.pc.Head? && d == c {
      assert StepN(x, e, d, 0) == NextHead(x, e, c);
    } else if c.pc.Thrown? {
      assert StepN(x, e, d, 1) == NextHead(x, e, c);
    } else {
      var n := NextHeadReached(x, e, c);
      if d == c {
        assert StepN(x, e, d, n) == NextHead(x, e, c);
      } else if Step(x, e, d) == c {
        assert StepN(x, e, d, n + 1) == NextHead(x, e, c);
      } else {
        assert StepN(x, e, d, n) == NextHead(x, e, c);
      }
    }
  }

  lemma NextHeadReached(x: Setup, e: Env, c: Config) returns (n: nat)
    ensures StepN(x, e, c, n) == NextHead(x, e, c)
    ensures !c.pc.Head? && !c.pc.Thrown? ==> n > 0
    decreases Rank(x, c)
  {
    if c.pc.Head? || c.pc.Thrown? {
      n := 0;
    } else {
      StepDescends(x, e, c);
      n := NextHeadReached(x, e, Step(x, e, c));
      n := n + 1;
    }
  }

  // The exact extent of crash transparency: the resumed run passes through the very loop head the
  // uninterrupted run comes to next if and only if the crash missed the three windows.
  lemma CrashTransparency(x: Setup, e: Env, c: Config)
    requires FreshIds(x) && NoWallClock(x) && Safe(x, c) && Redoable(x, e, c)
    ensures Rejoins(x, e, c) <==> !InWindow(c)
  {
    if InWindow(c) {
      ResumeApart(x, e, c);
      CrashKeepsSafe(x, c);
      UninterruptedNotApart(x, e, c);
      forall n: nat
        ensures StepN(x, e, Resumed(c.world), n) != NextHead(x, e, c)
      {
        StaysApart(x, e, c, Resumed(c.world), n);
      }
    } else {
      ResumeRejoins(x, e, c);
    }
  }

  // From the first record on: a run with any number of crashes outside the windows is the run without them.
  lemma RunTransparent(x: Setup, startedAt: int, e: Env, events: seq<Event>)
    requires FreshIds(x) && NoWallClock(x)
    requires Quiet(x, Life(Initial(x, startedAt), e), events)
    ensures
      var l := Live(x, Life(Initial(x, startedAt), e), events);
      Final(x, e, Resumed(l.config.world)) == Final(x, e, Initial(x, startedAt)) || InWindow(l.config)
  {
    var l0 := Life(Initial(x, startedAt), e);
    InitialSafe(x, startedAt);
    CrashesInvisible(x, l0, events);
    var l := Live(x, l0, events);
    if !InWindow(l.config) {
      LifeSafe(x, l0, events);
      LifeRedoable(x, l0, events);
      CrashKeepsFinal(x, e, l.config);
    }
  }

  lemma {:induction false} LifeRedoable(x: Setup, l: Life, events: seq<Event>)
    requires FreshIds(x) && NoWallClock(x) && Safe(x, l.config) && Redoable(x, l.env, l.config)
    ensures Redoable(x, Live(x, l, events).env, Live(x, l, events).config)
    decreases |events|
  {
    if events != [] {
      StepKeepsRedoable(x, l.env, l.config);
      StepKeepsSafe(x, l.env, l.config);
      CrashKeepsSafe(x, l.config);
      LifeRedoable(x, React(x, l, events[0]), events[1..]);
    }
  }

  // So of every durable state of every life, whatever happened before: resuming from it leads back to the
  // uninterrupted run if and only if it lies outside the windows.
  lemma ReachableTransparency(x: Setup, startedAt: int, e: Env, events: seq<Event>)
    requires FreshIds(x) && NoWallClock(x)
    ensures
      var l := Live(x, Life(Initial(x, startedAt), e), events);
      && (Rejoins(x, l.env, l.config) <==> !InWindow(l.config))
      && (!InWindow(l.config) ==> Final(x, l.env, Resumed(l.config.world)) == Final(x, l.env, l.config))
  {
    var l0 := Life(Initial(x, startedAt), e);
    InitialSafe(x, startedAt);
    LifeSafe(x, l0, events);
    LifeRedoable(x, l0, events);
    var l := Live(x, l0, events);
    CrashTransparency(x, l.env, l.config);
    if !InWindow(l.config) { CrashKeepsFinal(x, l.env, l.config); }
  }
}
