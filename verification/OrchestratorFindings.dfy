// When a repeated finding stops the loop. The review compared with is the one of the previous run, and a
// technical retry makes a failed run the previous one, which nobody reviewed.
module OrchestratorFindings {
  import opened Wrappers
  import opened StateMachine
  import opened Policy
  import opened DurableMachine
  import opened OrchestratorSafety
  import SupervisorAdapters

  predicate CompletedRun(w: World, id: Id) {
    id in w.results && w.results[id].status.Succeeded?
  }

  // The previous run either failed, or was reviewed and sent back.
  predicate Remembers(c: Config) {
    var w := c.world;
    && (w.record.previousRunId.Some? && CompletedRun(w, w.record.previousRunId.value) ==>
          w.record.previousRunId.value in w.reviews && w.reviews[w.record.previousRunId.value].decision.Revise?)
    && (w.record.state.RetryReady? ==> !HasCompletedResult(w))
  }

  // A step that is not a dispatch keeps both run ids, and files only under the current one.
  predicate SameRuns(c: Config, c': Config) {
    var w, w' := c.world, c'.world;
    && w'.record.previousRunId == w.record.previousRunId
    && w'.record.currentRunId == w.record.currentRunId
    && (forall id :: Some(id) != w.record.currentRunId && id in w.results ==>
        id in w'.results && w'.results[id] == w.results[id])
    && (forall id :: Some(id) != w.record.currentRunId && id in w'.results ==> id in w.results)
    && (forall id :: id in w.reviews ==> id in w'.reviews && w'.reviews[id] == w.reviews[id])
    && (w'.record.state.RetryReady? ==> !HasCompletedResult(w'))
  }

  lemma SameRunsRemember(x: Setup, c: Config, c': Config)
    requires FreshIds(x) && RunsNamed(x, c.world.record) && Remembers(c) && SameRuns(c, c')
    ensures Remembers(c')
  {
  }

  lemma RecoverSame(x: Setup, w: World)
    requires w.record.state.Running?
    ensures SameRuns(Point(w, Recover), RecoverStep(x, w))
  {
  }

  lemma ReviewSame(x: Setup, e: Env, w: World)
    requires w.record.state.Reviewing?
    ensures SameRuns(Point(w, Head), ReviewStep(x, e, w))
  {
  }

  lemma HeadSame(x: Setup, e: Env, w: World)
    requires !Dispatchable(w.record.state)
    ensures SameRuns(Point(w, Head), HeadStep(x, e, w))
  {
    match w.record.state {
      case Running => RecoverSame(x, w);
      case Reviewing => ReviewSame(x, e, w);
      case _ =>
    }
  }

  lemma PromptSame(x: Setup, c: Config)
    requires c.pc.PromptDue?
    ensures SameRuns(c, PromptStep(x, c.world, c.pc.revision))
  {
  }

  lemma WorkerSame(x: Setup, e: Env, c: Config)
    requires c.pc.ExecuteDue? || c.pc.ResultDue? || c.pc.ResultKept?
    ensures SameRuns(c, Step(x, e, c))
  {
  }

  lemma MoveSame(x: Setup, e: Env, c: Config)
    requires c.pc.ValidateDue? || c.pc.RetryDue? || c.pc.FailDue? || c.pc.ReviseDue? || c.pc.BlockDue? || c.pc.Thrown?
    requires c.pc.RetryDue? || c.world.record.state.RetryReady? ==> !HasCompletedResult(c.world)
    ensures SameRuns(c, Step(x, e, c))
  {
  }

  lemma ApplySame(x: Setup, c: Config)
    requires c.pc.ReviewKept?
    ensures SameRuns(c, ApplyStep(x, c.world, c.world.reviews[c.world.record.currentRunId.value]))
  {
  }

  lemma StepSame(x: Setup, e: Env, c: Config)
    requires OnCourse(x, c) && Remembers(c) && !(c.pc.Head? && Dispatchable(c.world.record.state))
    ensures SameRuns(c, Step(x, e, c))
  {
    match c.pc {
      case Head => HeadSame(x, e, c.world);
      case Recover => RecoverSame(x, c.world);
      case PromptDue(_) => PromptSame(x, c);
      case ExecuteDue | ResultDue(_) | ResultKept => WorkerSame(x, e, c);
      case ReviewKept => ApplySame(x, c);
      case _ => MoveSame(x, e, c);
    }
  }

  lemma StepRemembers(x: Setup, e: Env, c: Config)
    requires FreshIds(x) && Safe(x, c) && Remembers(c)
    ensures Remembers(Step(x, e, c))
  {
    if c.pc.Head? && Dispatchable(c.world.record.state) {
      HeadRemembers(x, e, c.world);
    } else {
      StepSame(x, e, c);
      SameRunsRemember(x, c, Step(x, e, c));
    }
  }

  lemma HeadRemembers(x: Setup, e: Env, w: World)
    requires FreshIds(x) && Safe(x, Point(w, Head)) && Remembers(Point(w, Head)) && Dispatchable(w.record.state)
    ensures Remembers(HeadStep(x, e, w))
  {
    DispatchRemembers(x, w);
  }

  lemma DispatchRemembers(x: Setup, w: World)
    requires FreshIds(x) && Safe(x, Point(w, Head)) && Remembers(Point(w, Head)) && Dispatchable(w.record.state)
    ensures Remembers(DispatchStep(x, w))
  {
  }

  lemma {:induction false} LifeRemembers(x: Setup, l: Life, events: seq<Event>)
    requires FreshIds(x) && Safe(x, l.config) && Remembers(l.config)
    ensures Remembers(Live(x, l, events).config)
    decreases |events|
  {
    if events != [] {
      StepRemembers(x, l.env, l.config);
      StepKeepsSafe(x, l.env, l.config);
      CrashKeepsSafe(x, l.config);
      LifeRemembers(x, React(x, l, events[0]), events[1..]);
    }
  }

  // In every durable state of every life, a review asking for a revision is turned down for a repeated finding
  // if and only if no user decision is asked for, the revision limit is not reached, and the run before was
  // reviewed, which is to say completed, and the two reviews have a fingerprint in common.
  lemma RepeatedFindingBlocks(x: Setup, startedAt: int, e: Env, events: seq<Event>)
    requires FreshIds(x)
    ensures
      var w := Live(x, Life(Initial(x, startedAt), e), events).config.world;
      var previous := w.record.previousRunId;
      && (previous.Some? ==> (CompletedRun(w, previous.value) <==> previous.value in w.reviews))
      && (w.record.state.Reviewing? && HasReview(w, Revise) ==>
            var review := w.reviews[w.record.currentRunId.value];
            ApplyStep(x, w, review) == Blocking(w, RepeatedUnresolvedFinding) <==>
              && !NeedsUser(review) && w.record.revisionCount < x.config.maxRevisions
              && previous.Some? && CompletedRun(w, previous.value)
              && previous.value in w.reviews && Repeats(review, w.reviews[previous.value]))
  {
    var l := Life(Initial(x, startedAt), e);
    InitialSafe(x, startedAt);
    LifeSafe(x, l, events);
    LifeRemembers(x, l, events);
    FiledIsFiledHere(x, Live(x, l, events).config.world);
  }

  /* What a run is told */

  // Run n was told of the review of the run before, if there is one, and of the result it reviewed.
  function ToldOf(x: Setup, w: World, n: nat): Prompt {
    if n > 0 && x.ids(n - 1) in w.reviews && x.ids(n - 1) in w.results then
      RevisionPrompt(x.ids(n), w.results[x.ids(n - 1)], w.reviews[x.ids(n - 1)])
    else WorkerPrompt(x.ids(n))
  }

  ghost predicate Told(x: Setup, w: World) {
    forall n: nat :: n < w.record.runCount && x.ids(n) in w.prompts ==> w.prompts[x.ids(n)] == ToldOf(x, w, n)
  }

  // A revision prompt is due exactly when the run before was reviewed.
  predicate DueTold(c: Config) {
    c.pc.PromptDue? ==>
      var previous := c.world.record.previousRunId;
      c.pc.revision <==> previous.Some? && previous.value in c.world.reviews
  }

  lemma DispatchDueTold(x: Setup, w: World)
    requires FreshIds(x) && Safe(x, Point(w, Head)) && Remembers(Point(w, Head)) && Dispatchable(w.record.state)
    ensures DueTold(DispatchStep(x, w))
  {
  }

  // Only a dispatch makes a prompt due.
  lemma NoPromptDue(x: Setup, e: Env, c: Config)
    requires !(c.pc.Head? && Dispatchable(c.world.record.state))
    ensures !Step(x, e, c).pc.PromptDue?
  {
    if c.pc.Head? && c.world.record.state.Reviewing? { NoPromptReview(x, e, c.world); }
  }

  lemma NoPromptReview(x: Setup, e: Env, w: World)
    requires w.record.state.Reviewing?
    ensures !ReviewStep(x, e, w).pc.PromptDue?
  {
  }

  lemma StepDueTold(x: Setup, e: Env, c: Config)
    requires FreshIds(x) && Safe(x, c) && Remembers(c)
    ensures DueTold(Step(x, e, c))
  {
    if c.pc.Head? && Dispatchable(c.world.record.state) {
      DispatchDueTold(x, c.world);
    } else {
      NoPromptDue(x, e, c);
    }
  }

  // What is filed from now on concerns the current run, and no run before it.
  ghost predicate LaterFiled(x: Setup, w: World, w': World) {
    && w.record.runCount <= w'.record.runCount
    && forall n: nat :: n + 1 < w.record.runCount ==>
         var id := x.ids(n);
         && (id in w.reviews <==> id in w'.reviews) && (id in w.results <==> id in w'.results)
         && (id in w.reviews ==> w'.reviews[id] == w.reviews[id])
         && (id in w.results ==> w'.results[id] == w.results[id])
  }

  lemma LaterSame(x: Setup, w: World, w': World, n: nat)
    requires LaterFiled(x, w, w') && n < w.record.runCount
    ensures ToldOf(x, w', n) == ToldOf(x, w, n)
  {
    if n > 0 { assert n - 1 + 1 < w.record.runCount; }
  }

  lemma StepLater(x: Setup, e: Env, c: Config)
    requires FreshIds(x) && Safe(x, c)
    ensures LaterFiled(x, c.world, Step(x, e, c).world)
  {
    FiledIsFiledHere(x, c.world);
    StepWrites(x, e, c);
  }

  lemma StepTold(x: Setup, e: Env, c: Config)
    requires FreshIds(x) && Safe(x, c) && DueTold(c) && Told(x, c.world)
    ensures Told(x, Step(x, e, c).world)
  {
    var w, w' := c.world, Step(x, e, c).world;
    FiledIsFiledHere(x, w);
    StepLater(x, e, c);
    forall n: nat | n < w'.record.runCount && x.ids(n) in w'.prompts
      ensures w'.prompts[x.ids(n)] == ToldOf(x, w', n)
    {
      if n < w.record.runCount && x.ids(n) in w.prompts {
        StepKeepsPrompt(x, e, c, x.ids(n));
        LaterSame(x, w, w', n);
      } else {
        StepNewPrompt(x, e, c, n);
      }
    }
  }

  lemma StepKeepsPrompt(x: Setup, e: Env, c: Config, id: Id)
    requires FreshIds(x) && Safe(x, c) && id in c.world.prompts
    ensures id in Step(x, e, c).world.prompts && Step(x, e, c).world.prompts[id] == c.world.prompts[id]
  {
    FiledIsFiledHere(x, c.world);
    StepWrites(x, e, c);
  }

  predicate Unprompted(w: World, w': World) {
    w'.prompts == w.prompts && w'.record.runCount <= w.record.runCount + 1
  }

  lemma RecoverUnprompted(x: Setup, w: World)
    requires w.record.state.Running?
    ensures Unprompted(w, RecoverStep(x, w).world)
  {
  }

  lemma ReviewUnprompted(x: Setup, e: Env, w: World)
    requires w.record.state.Reviewing?
    ensures Unprompted(w, ReviewStep(x, e, w).world)
  {
  }

  lemma HeadUnprompted(x: Setup, e: Env, w: World)
    ensures Unprompted(w, HeadStep(x, e, w).world)
  {
    if w.record.state.Running? {
      RecoverUnprompted(x, w);
    } else if w.record.state.Reviewing? {
      ReviewUnprompted(x, e, w);
    }
  }

  // Prompts are written only where they are due.
  lemma StepUnprompted(x: Setup, e: Env, c: Config)
    requires !c.pc.PromptDue?
    ensures Unprompted(c.world, Step(x, e, c).world)
  {
    if c.pc.Head? {
      HeadUnprompted(x, e, c.world);
    } else if c.pc.Recover? {
      RecoverUnprompted(x, c.world);
    }
  }

  // And there only for the current run.
  lemma PromptOnly(x: Setup, c: Config)
    requires c.pc.PromptDue?
    ensures
      var w := PromptStep(x, c.world, c.pc.revision).world;
      && w.record.runCount == c.world.record.runCount && w.results == c.world.results && w.reviews == c.world.reviews
      && forall id :: id in w.prompts && Some(id) != c.world.record.currentRunId ==> id in c.world.prompts
  {
  }

  lemma PromptTold(x: Setup, c: Config)
    requires FreshIds(x) && Safe(x, c) && c.pc.PromptDue? && DueTold(c)
    ensures
      var w := PromptStep(x, c.world, c.pc.revision).world;
      var n := c.world.record.runCount - 1;
      n >= 0 && x.ids(n) in w.prompts && w.prompts[x.ids(n)] == ToldOf(x, c.world, n)
  {
    FiledIsFiledHere(x, c.world);
  }

  lemma StepNewPrompt(x: Setup, e: Env, c: Config, n: nat)
    requires FreshIds(x) && Safe(x, c) && DueTold(c)
    requires x.ids(n) !in c.world.prompts || n >= c.world.record.runCount
    requires n < Step(x, e, c).world.record.runCount && x.ids(n) in Step(x, e, c).world.prompts
    ensures Step(x, e, c).world.prompts[x.ids(n)] == ToldOf(x, Step(x, e, c).world, n)
  {
    if c.pc.PromptDue? {
      PromptOnly(x, c);
      PromptTold(x, c);
    } else {
      StepUnprompted(x, e, c);
      FiledIsFiledHere(x, c.world);
      assert false;
    }
  }

  lemma {:induction false} LifeTold(x: Setup, l: Life, events: seq<Event>)
    requires FreshIds(x) && Safe(x, l.config) && Remembers(l.config) && DueTold(l.config) && Told(x, l.config.world)
    ensures Told(x, Live(x, l, events).config.world)
    decreases |events|
  {
    if events != [] {
      StepTold(x, l.env, l.config);
      StepDueTold(x, l.env, l.config);
      StepRemembers(x, l.env, l.config);
      StepKeepsSafe(x, l.env, l.config);
      CrashKeepsSafe(x, l.config);
      LifeTold(x, React(x, l, events[0]), events[1..]);
    }
  }

  // In every durable state of every life, each run with a prompt has been told of the review of the run before it
  // and of the result reviewed, if there was a review, and has the plain prompt otherwise.
  lemma RunsAreTold(x: Setup, startedAt: int, e: Env, events: seq<Event>)
    requires FreshIds(x)
    ensures
      var w := Live(x, Life(Initial(x, startedAt), e), events).config.world;
      forall n: nat :: n < w.record.runCount && x.ids(n) in w.prompts ==>
        w.prompts[x.ids(n)] ==
          if n > 0 && x.ids(n - 1) in w.reviews && x.ids(n - 1) in w.results then
            RevisionPrompt(x.ids(n), w.results[x.ids(n - 1)], w.reviews[x.ids(n - 1)])
          else WorkerPrompt(x.ids(n))
    ensures
      var w := Live(x, Life(Initial(x, startedAt), e), events).config.world;
      forall id :: id in w.reviews ==> id in w.results
  {
    var l := Life(Initial(x, startedAt), e);
    InitialSafe(x, startedAt);
    LifeSafe(x, l, events);
    LifeTold(x, l, events);
    var w := Live(x, l, events).config.world;
    forall n: nat | n < w.record.runCount && x.ids(n) in w.prompts
      ensures w.prompts[x.ids(n)] == ToldOf(x, w, n)
    {
    }
  }

  /* With the ChatGPT supervisor adapter no finding carries a fingerprint */

  predicate Unmarked(review: Review) {
    forall f :: f in review.findings ==> !Marked(f)
  }

  // The reviews of this process are the adapter's.
  ghost predicate SpeaksChatGPT(e: Env) {
    forall task, result, previous, revisions ::
      var outcome := e.supervisor(task, result, previous, revisions);
      outcome.Replied? ==>
        exists p: SupervisorAdapters.Parsed :: p.ReviewReply? && SupervisorAdapters.ToReview(p) == Some(outcome.review)
  }

  lemma AdapterUnmarked(p: SupervisorAdapters.Parsed)
    requires p.ReviewReply? && SupervisorAdapters.ToReview(p).Some?
    ensures Unmarked(SupervisorAdapters.ToReview(p).value)
    ensures forall previous :: !Repeats(SupervisorAdapters.ToReview(p).value, previous)
  {
  }

  ghost predicate Fingerprintless(w: World) {
    && (forall id :: id in w.reviews ==> Unmarked(w.reviews[id]))
    && w.record.blockedReason != Some(RepeatedUnresolvedFinding)
  }

  lemma ApplyFingerprintless(x: Setup, w: World, review: Review)
    requires Fingerprintless(w) && Unmarked(review) && w.record.state.Reviewing?
    ensures Fingerprintless(ApplyStep(x, w, review).world)
  {
  }

  lemma ReviewFingerprintless(x: Setup, e: Env, w: World)
    requires SpeaksChatGPT(e) && Fingerprintless(w) && w.record.state.Reviewing?
    ensures Fingerprintless(ReviewStep(x, e, w).world)
  {
    if HasRun(w) && w.record.currentRunId.value in w.reviews {
      ApplyFingerprintless(x, w, w.reviews[w.record.currentRunId.value]);
    } else if HasRun(w) && w.record.currentRunId.value in w.results {
      var outcome := AskSupervisor(x, e, w, w.results[w.record.currentRunId.value]);
      if outcome.Replied? {
        var p: SupervisorAdapters.Parsed :| p.ReviewReply? && SupervisorAdapters.ToReview(p) == Some(outcome.review);
        AdapterUnmarked(p);
      }
    }
  }

  // Nothing but a review files a review or blocks for a repeated finding.
  predicate NoReview(w: World, w': World) {
    && w'.reviews == w.reviews
    && (w'.record.blockedReason == w.record.blockedReason || w'.record.blockedReason != Some(RepeatedUnresolvedFinding))
  }

  lemma RecoverNoReview(x: Setup, w: World)
    requires w.record.state.Running?
    ensures NoReview(w, RecoverStep(x, w).world)
  {
  }

  lemma HeadNoReview(x: Setup, e: Env, w: World)
    requires !w.record.state.Reviewing?
    ensures NoReview(w, HeadStep(x, e, w).world)
  {
    if w.record.state.Running? { RecoverNoReview(x, w); }
  }

  lemma OtherNoReview(x: Setup, e: Env, c: Config)
    requires !c.pc.ReviewKept? && !c.pc.Head?
    ensures NoReview(c.world, Step(x, e, c).world)
  {
    if c.pc.Recover? { RecoverNoReview(x, c.world); }
  }

  lemma StepFingerprintless(x: Setup, e: Env, c: Config)
    requires SpeaksChatGPT(e) && Fingerprintless(c.world)
    ensures Fingerprintless(Step(x, e, c).world)
  {
    if c.pc.ReviewKept? {
      ApplyFingerprintless(x, c.world, c.world.reviews[c.world.record.currentRunId.value]);
    } else if c.pc.Head? && c.world.record.state.Reviewing? {
      ReviewFingerprintless(x, e, c.world);
    } else if c.pc.Head? {
      HeadNoReview(x, e, c.world);
    } else {
      OtherNoReview(x, e, c);
    }
  }

  // No task is ever blocked for a repeated finding while that adapter supervises it.
  lemma {:induction false} AdapterNeverRepeats(x: Setup, l: Life, events: seq<Event>)
    requires SpeaksChatGPT(l.env) && Fingerprintless(l.config.world)
    requires forall i :: 0 <= i < |events| && events[i].Crash? ==> SpeaksChatGPT(events[i].next)
    ensures Fingerprintless(Live(x, l, events).config.world)
    decreases |events|
  {
    if events != [] {
      StepFingerprintless(x, l.env, l.config);
      assert events[0].Crash? ==> SpeaksChatGPT(events[0].next);
      AdapterNeverRepeats(x, React(x, l, events[0]), events[1..]);
    }
  }
}
