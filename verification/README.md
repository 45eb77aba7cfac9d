# Agent Supervisor Runtime: verified model

A Dafny model of the parts of the Agent Supervisor Runtime that carry state across crashes, restarts and hand-offs,
with proofs about whole runs of them. `dafny verify dfyconfig.toml` checks everything.

## What is modelled

**The durable orchestrator** (`StateMachine`, `Policy`, `DurableMachine`, `Orchestrator*`). A task's record,
prompts, results and reviews are durable; what the process is about to do next is not. `DurableMachine.Step`
performs one durable write or one worker call, and a crash may fall between any two steps, after which a new process
resumes and faces a possibly different worker, supervisor and clock. A life of a task is any sequence of steps and
crashes. The class `OrchestratorObject.Orchestrator` has the source's methods and loops; each of its saves is proved
to be one step of the machine, each method to end where the machine ends, and any succession of `run` and `resume`
to be a life (`SuccessionIsLife`), so what is proved of lives holds of the object.

**Leases, transport manager and companion** (`Leases`, `Transports`, `Companions`, `TransportRuns`,
`TransportDrains`). The coordinator's, the manager's and the companion's calls are methods proved against functions
on their state; a run is any schedule of such calls by any number of transports, with a clock that never runs
backwards and processes that may restart.

**The message exchange** (`Ledger`, `Reconciliation`, `Delivery`, `Reconcilers`, `SupervisorAdapters`,
`Strandings`). The ledger, the reconciler and the ChatGPT supervisor adapter are classes. `Delivery` is the machine
of single ledger writes, page deliveries and crashes; every method of the adapter and the reconciler is proved to do
a legal sequence of its actions.

**The context broker** (`Utf`, `ContextBrokers`). UTF-16 text, its UTF-8 size and encoding (section 3 of RFC 3629),
scopes, two byte budgets and single-use continuations.

**Codecs** (`Framing`, `CommandLines`). The length-prefixed encoder and incremental decoder, which the runtime's
pipe and the native host share up to their limits (1 MiB for the pipe and the native host's output, 64 MiB for its
input), and the Windows command-line quoter with a reader by the Microsoft C runtime's rules ("Parsing C
command-line arguments").

## What the proofs found

- Crash transparency has exactly three windows. Resuming after a crash leads back to the uninterrupted run if and
  only if the crash did not fall while a DISPATCHED run had no prompt, a RUNNING run had no result, or a counter was
  saved ahead of its move (`ReachableTransparency`). From inside a window it never passes the loop head the
  uninterrupted run comes to next.
- `docs/protocol.md:19` promises that a fingerprint repeated in two consecutive reviews separated by a revision
  blocks another automatic loop. The code compares with the previous run's review, and a technical retry between the
  two reviews makes an unreviewed failed run the previous one. `RetryHidesRepetition` is such a run;
  `RepeatedFindingBlocks` says exactly when a repetition is caught.
- The repository's `README.md:67` promises at most one ACTIVE writer per binding. As to writing the promise holds,
  for any number of bindings and any run: submissions to a binding carry non-decreasing epochs and one epoch has one
  writer, across restarts (`RunFenced`). That only one transport may write to a binding at one time needs no run at
  all; it lies in the stored lease having one holder, and what is submitted is submitted by it
  (`OneWriterPerBinding`). The status ACTIVE says less. It is kept per transport, not per binding: with one binding
  at most one transport is ACTIVE and it holds the lease (`AtMostOneActive`); with two bindings under one manager
  two can be (`TwoBindingsTwoActive`), exactly when one transport renews a live lease of its own while another is
  ACTIVE (`OneActiveExactly`).
- Draining is not one-way. `docs/protocols/asr-nm-1.md:32` has a higher-priority transport wait for the exchange in
  flight to drain. A drained companion stays silent under its epoch as long as it drains (`DrainIsOneWay`), and over
  any run about any number of bindings it drains throughout if and only if no call revives it (`DrainLastsExactly`).
  `Revives` names the calls by their guards. A restart hands the unexpired lease back to its holder
  (`RestartRevives`), a renewal makes it ACTIVE (`RenewalRevives`), and so does, in two steps, any other transport
  being granted any other binding, since that puts everyone else on STANDBY (`OtherBindingRevives`). In each of
  these runs the companion submits a second message under the epoch it was draining.
- The repository's `README.md:69` promises that the ledger is reconciled before any resend. A review request whose
  process died while sending it is neither reconciled nor resent: it stays CLAIMED (`ReconcileOnlyAdvances`,
  `StrandedNeverResent`), and every later review request for its run finds it and is refused
  (`StrandedBlocksItsRun`, with `RequestReview`, whose contract says exactly when it refuses). A message comes to be
  left so if and only if a process dies between claiming it and confirming or taking it back (`StrandedExactly`),
  even if the page never got it (`CrashStrands`).
- A review request on record can be taken up again only if there was no evidence when it was recorded and there
  is none now. What is hashed holds the manifest, and every manifest has new refs (`NewRefs`), so with any evidence
  the payload never matches (`PayloadMatches`) and `RequestReview` reports a mismatch.
  `src/adapters/registry.ts:100` always configures a broker, so in practice this is what happens to every request
  interrupted while evidence exists.
- A continuation token is spent even by a fetch that then fails (`FetchSpendsToken`). Where the budget was the
  reason nothing is lost by that: usage never falls, so what could not be afforded never can be
  (`UnaffordableForGood`).
- With the ChatGPT adapter as supervisor no finding carries a fingerprint, so the check for repeated findings never
  fires in any life of any task (`AdapterNeverRepeats`).
- Splitting a quoted command line returns the arguments if and only if none is empty (`ArgumentsRoundTrip`): the
  quoter writes nothing for an empty one. For the program's name, which the C runtime reads without escapes, a name
  that needs quotes and ends in a backslash comes back with the backslash doubled (`CommandRoundTrip`).

## Assumptions

- A store write is atomic and does not throw. A transport that throws in `connect` or `send` has delivered nothing.
- A coordinator, manager or companion call is atomic; it may read the clock several times, each reading not before
  the last. Interleaving calls at their awaits is not modelled.
- Run ids come from a supply indexed by the number of dispatches that never repeats an id (`FreshIds`); message ids
  are asked for by ledger length. Sequence numbers use the default allocation.
- Worker, supervisor, clock and transport answers are functions of their arguments within one process. No argument
  recurs there, so this excludes no behaviour; a new process may meet other functions. A second attempt at the same
  review request is a new adapter object over the same ledger. Only the transparency theorems compare two processes
  in the same environment, without a wall-clock limit.
- JSON is a pair of functions that undo each other, SHA-256 is any function, free of collisions where review
  requests are compared, context refs are never drawn twice, and schema validation has already happened.

## Model

| member | source | states |
|---|---|---|
| OrchestratorSafety.StepKeepsSafe | src/core/orchestrator.ts:67-306 | one durable write or worker call keeps the invariant that ties the record's run ids to what is filed under them |
| OrchestratorSafety.LifeSafe | src/core/orchestrator.ts:55-102 | the invariant holds in every durable state of every life, whatever crashes and resumes |
| OrchestratorSafety.CompletedCertificate | src/core/orchestrator.ts:164-242 | COMPLETED has a completed result and a PASS review of its own current run; RESULT_READY, REVIEWING and REVISION_READY carry their evidence; everything filed belongs to its task and run |
| OrchestratorSafety.LostContextUnreachable | src/core/orchestrator.ts:115-126 | the blocks for a missing run id, worker result or revision context never happen |
| OrchestratorSafety.WorkerAtMostOnce | src/core/orchestrator.ts:110-168 | no run id is executed twice over any crashes and resumes; only executed runs have results, only runs with a prompt are executed |
| OrchestratorSafety.NeverOverwritten | src/core/orchestrator.ts:130-214 | a persisted prompt, result or review is never replaced, and no worker call undone |
| OrchestratorBounds.RunBound | src/core/orchestrator.ts:104-184 | at most (R+1)(W+1) dispatches, and at most maxRuns, although retries restart with each revision and crashes may count twice |
| OrchestratorBounds.LifeBounded | src/core/orchestrator.ts:175-241 | the inductive bound on dispatches by revisions and retries, in every state of every life |
| OrchestratorBounds.StepDescends | src/core/orchestrator.ts:67-102 | every step lowers a measure of revisions left, retries left and phase |
| OrchestratorBounds.LoopStepsBounded | src/core/orchestrator.ts:67-102 | the loop iterations still to come are bounded by a potential read off the record |
| OrchestratorBounds.RunTerminates | src/core/orchestrator.ts:67-102 | from a new task, at most (R+1)(2W+4) and so at most 4(R+1)(W+1) loop iterations for any worker and supervisor |
| OrchestratorScenarios.RunBoundAttained | src/core/orchestrator.ts:175-241 | for all limits R and W some run does dispatch (R+1)(W+1) times, so the run bound is exact |
| OrchestratorScenarios.Round | src/core/orchestrator.ts:104-242 | a completed and sent-back attempt leads from one dispatch to the next with one more revision, no retries and the review filed |
| OrchestratorScenarios.RetryHidesRepetition | src/core/orchestrator.ts:230-241 | a concrete run in which two consecutive reviews share a fingerprint and a further revision starts all the same |
| OrchestratorFindings.RepeatedFindingBlocks | src/core/policy-engine.ts:39-59 | in every reachable state a repeated finding blocks if and only if the policy got that far and the previous run was completed, hence reviewed, and shares a fingerprint |
| OrchestratorFindings.LifeRemembers | src/core/orchestrator.ts:110-113 | over every life, the previous run either did not complete or has a REVISE review |
| OrchestratorFindings.AdapterUnmarked | src/chatgpt/supervisor-adapter.ts:223-229 | a review made by the ChatGPT adapter repeats no other review |
| OrchestratorFindings.AdapterNeverRepeats | src/core/policy-engine.ts:52-56 | in every life supervised by that adapter no task is blocked for a repeated finding |
| OrchestratorFindings.RunsAreTold | src/core/orchestrator.ts:115-130 | in every durable state of every life, each run's prompt holds the result and the review of the run before if that run was reviewed, and is the plain one otherwise |
| OrchestratorTurns.FirstTurn | src/core/orchestrator.ts:35-53 | a new task is READY after its first turn, with its start on record, all counters at zero and nothing filed |
| OrchestratorTurns.ResumedTurn | src/core/orchestrator.ts:55-65 | a resumed RUNNING task is settled by its filed result or as not completed, whatever the time; any other goes to the top of the loop |
| OrchestratorTurns.OutOfTimeExactly | src/core/policy-engine.ts:30-37 | the time budget is exceeded if and only if more minutes have passed since the start than the task, or else the engine, allows |
| OrchestratorTurns.TimeTurn | src/core/orchestrator.ts:70-74 | out of time, a task in any state that is not terminal is blocked for it |
| OrchestratorTurns.CreatedTurn | src/core/orchestrator.ts:77-79 | in time, a CREATED task becomes READY |
| OrchestratorTurns.ResultReadyTurn | src/core/orchestrator.ts:91-93 | in time, a RESULT_READY task becomes REVIEWING |
| OrchestratorTurns.DispatchTurn | src/core/orchestrator.ts:104-132 | a dispatch is blocked by the run budget or leaves the new run current, counted, and with the prompt it is due |
| OrchestratorTurns.WorkTurn | src/core/orchestrator.ts:134-185 | the worker is called once with the run's prompt and both counters; its own completed result is ready for review, any other of its own, or none because it threw, is retried or fails the task, a foreign one blocks |
| OrchestratorTurns.ReviewTurn | src/core/orchestrator.ts:187-242 | by the verdict filed or given to the result, the review before and the revision count, the task completes, is revised, or is blocked for the stated reason; an unavailable supervisor leaves it as it is |
| OrchestratorTurns.PassCompletes | src/core/orchestrator.ts:219-224 | a task whose run is passed in time ends COMPLETED with its record otherwise unchanged |
| OrchestratorTurns.ReviewBlocks | src/core/policy-engine.ts:39-59 | a review that asks the user, comes at the revision limit or repeats a finding ends the task BLOCKED for that reason |
| OrchestratorTransparency.CrashTransparency | src/core/orchestrator.ts:55-102 | the resumed run passes the next loop head of the uninterrupted run if and only if the crash missed the three windows |
| OrchestratorTransparency.ReachableTransparency | src/core/orchestrator.ts:55-259 | the same for every durable state of every life, and outside the windows the whole final state is the same |
| OrchestratorTransparency.CrashesInvisible | src/core/orchestrator.ts:55-102 | any number of crashes outside the windows leaves the final record, prompts, results, reviews and worker calls unchanged |
| OrchestratorTransparency.RunTransparent | src/core/orchestrator.ts:35-65 | a run with crashes outside the windows ends as the run without them |
| OrchestratorObject.Orchestrator.Move | src/core/orchestrator.ts:301-306 | one transition, one save, one machine step |
| OrchestratorObject.Orchestrator.Block | src/core/orchestrator.ts:293-299 | saves the reason, then BLOCKED, as the machine does up to its next loop head |
| OrchestratorObject.Orchestrator.PrepareDispatch | src/core/orchestrator.ts:104-132 | run budget, new run id, DISPATCH and the prompt bring the store to the machine's next loop head |
| OrchestratorObject.Orchestrator.PreparePrompt | src/core/orchestrator.ts:115-131 | the prompt of a new or revised run is saved, or the run blocked, as the machine does |
| OrchestratorObject.Orchestrator.ExecuteDispatched | src/core/orchestrator.ts:134-162 | START, the worker call and its settlement bring the store to the machine's next loop head |
| OrchestratorObject.Orchestrator.SettleResult | src/core/orchestrator.ts:164-185 | identity check, saved result, then success or the retry decision |
| OrchestratorObject.Orchestrator.RecoverInterruptedFailure | src/core/orchestrator.ts:281-291 | counter or failure reason saved before its move |
| OrchestratorObject.Orchestrator.ReviewCurrent | src/core/orchestrator.ts:187-217 | a filed review is applied again, a new one is checked and filed first; unavailability leaves the process like a crash |
| OrchestratorObject.Orchestrator.ApplyReview | src/core/orchestrator.ts:219-242 | PASS, ASK_USER and the policy's decision on REVISE |
| OrchestratorObject.Orchestrator.Turn | src/core/orchestrator.ts:70-99 | one turn of the loop ends at the machine's next loop head, or where it gives up |
| OrchestratorObject.Orchestrator.Advance | src/core/orchestrator.ts:67-102 | the loop ends, in the machine's final state, and answers with its record or the unavailability |
| OrchestratorObject.Orchestrator.SettleInterrupted | src/core/orchestrator.ts:244-257 | an interrupted run is settled by its filed result, or as failed |
| OrchestratorObject.Orchestrator.ResumeRunning | src/core/orchestrator.ts:244-259 | recovery from RUNNING ends in the machine's final state |
| OrchestratorObject.Orchestrator.Run | src/core/orchestrator.ts:35-53 | a new task ends in the machine's final state |
| OrchestratorObject.Orchestrator.Resume | src/core/orchestrator.ts:55-65 | resuming ends where the machine ends from its re-entry point; an unknown task changes nothing |
| OrchestratorObject.SuccessionIsLife | src/core/orchestrator.ts:35-65 | what a `run` and any number of killed and resumed processes write is a life of the machine |
| OrchestratorObject.SuccessionSafe | src/core/orchestrator.ts:35-65 | so any such succession ends safe and within the run bound |
| Leases.TransportLeaseCoordinator.Acquire | src/conversations/lease.ts:74-94 | grants a new epoch, returns one's own live lease, or refuses |
| Leases.TransportLeaseCoordinator.Renew | src/conversations/lease.ts:96-105 | extends a lease one has authority over |
| Leases.TransportLeaseCoordinator.Release | src/conversations/lease.ts:107-110 | expires a lease one has authority over, keeping its epoch |
| Leases.TransportLeaseCoordinator.AssertAuthority | src/conversations/lease.ts:112-129 | succeeds exactly for the stored holder and epoch of a live lease |
| Transports.TransportManager.Acquire | src/conversations/transport-manager.ts:63-97 | the new registrations and leases and the answer, for every branch |
| Transports.TransportManager.TakeOver | src/conversations/transport-manager.ts:83-96 | the outranked holder is drained, and its lease taken unless its exchange is in flight |
| Transports.TransportManager.MarkOthersStandby | src/conversations/transport-manager.ts:129-133 | everyone but the holder and the OFFLINE becomes STANDBY |
| Transports.TransportManager.Renew | src/conversations/transport-manager.ts:99-104 | a granted renewal makes its holder ACTIVE and demotes nobody |
| Transports.TransportManager.Release | src/conversations/transport-manager.ts:110-113 | a granted release makes its holder STANDBY |
| Transports.TransportManager.AssertSendAuthority | src/conversations/transport-manager.ts:115-121 | succeeds exactly for an ACTIVE transport with authority over the live lease |
| Transports.AcquireAnswers | src/conversations/transport-manager.ts:63-97 | when an acquire is granted, the lease it answers is the stored one, and what it is; otherwise no lease changes, and why; every registration afterwards |
| Transports.RenewAnswers | src/conversations/transport-manager.ts:99-104 | a renewal is granted exactly to the registered live holder, and answers the stored lease with its new expiry |
| Transports.ReleaseAnswers | src/conversations/transport-manager.ts:110-113 | a release ends exactly the live holder's lease, at the clock's reading |
| Transports.HandOffSafety | src/conversations/transport-manager.ts:63-97 | a live lease changes hands if and only if the requester strictly outranks an idle holder and the lease is still alive when released; then the epoch is old+1, else nothing stored changes |
| Transports.HandOffDrains | src/conversations/transport-manager.ts:83-92 | the outranked holder is DRAINING while it keeps the lease and STANDBY once it has lost it |
| Companions.BackgroundWebTransport.Connect | src/companion/transport.ts:96-131 | binding, draining, renewal and acquisition, for every branch |
| Companions.BackgroundWebTransport.Send | src/companion/transport.ts:133-147 | submits exactly when all checks pass, and is in flight exactly when submitting worked |
| Companions.BackgroundWebTransport.WaitForResponse | src/companion/transport.ts:149-164 | the first correlated answer, or a failure; the exchange is over either way |
| Companions.BackgroundWebTransport.Disconnect | src/companion/transport.ts:179-190 | releases the lease it caches and forgets everything |
| Companions.ConnectAnswers | src/companion/transport.ts:109-130 | with its page ready a companion connects quietly while draining, renewed, granted, outranked or waiting for an exchange, and fails only on an unregistered or just expired holder; it caches the stored lease, nothing, or what it had |
| Companions.ConnectNeedsPage | src/companion/transport.ts:96-108 | why a connect fails before its page is ready, and what it keeps |
| Companions.ConnectMisconfigured | src/companion/transport.ts:113-130 | without a registration or with a useless time to live a connect fails and leaves the office alone |
| Companions.SendRefusals | src/companion/transport.ts:133-139 | why a message is refused |
| Companions.DisconnectReleases | src/companion/transport.ts:179-190 | disconnecting ends the exchange and the lease still held, and forgets everything |
| Companions.SubmitCertificate | src/companion/transport.ts:133-147 | a submission happens if and only if cached, requested and stored epoch agree, the lease is alive and its holder ACTIVE with a ready page |
| Companions.DrainMakesProgress | src/conversations/transport-manager.ts:83-97 | once the exchange has ended, a higher-priority acquire takes the lease with the next epoch if and only if the lease does not expire between two of its clock readings; else it fails as stale and changes no lease |
| TransportRuns.RunEvolves | src/conversations/lease.ts:74-110 | over any run the epoch never decreases, an epoch never changes hands and an expired lease gets no more time |
| TransportRuns.NeverReauthorised | src/conversations/lease.ts:112-129 | a holder and epoch once expired, released or superseded are never authorised again |
| TransportRuns.RunFenced | src/companion/transport.ts:133-147 | submissions to a binding carry non-decreasing epochs, one writer each, over any run with restarts |
| TransportRuns.AtMostOneActive | src/conversations/transport-manager.ts:63-133 | with one binding, every ACTIVE transport holds the stored lease, so there is at most one |
| TransportRuns.OneWriterPerBinding | src/conversations/transport-manager.ts:115-121 | whatever the bindings and the run, one transport under one epoch may write to a binding at one time, and what is submitted next is submitted by it |
| TransportRuns.TwoBindingsTwoActive | src/conversations/transport-manager.ts:99-104 | a concrete run on two bindings after which two transports are ACTIVE |
| TransportRuns.OneActiveExactly | src/conversations/transport-manager.ts:63-133 | whatever the bindings, at most one transport is ACTIVE throughout a run if and only if no transport renews a live lease of its own while another is ACTIVE |
| TransportDrains.AcquireDrains | src/conversations/transport-manager.ts:83-92 | a strictly higher-priority acquire drains the holder's epoch |
| TransportDrains.BeginDrainDrains | src/conversations/transport-manager.ts:106-108 | telling a lease holder to drain drains its epoch and changes nothing else |
| TransportDrains.ExchangeInFlight | src/companion/transport.ts:140-163 | an exchange is in flight from a submission that works until the wait for its response ends |
| TransportDrains.StepDrained | src/conversations/transport-manager.ts:24-133 | one call ends the draining if and only if it is one of those named by their guards and the lease outlasts it |
| TransportDrains.DrainLastsExactly | src/conversations/transport-manager.ts:24-133 | over any run about any number of bindings, draining lasts throughout if and only if no call revives it |
| TransportDrains.DrainIsOneWay | src/companion/transport.ts:96-147 | as long as nothing revives it, a drained transport submits nothing more under its epoch, through the manager or as a companion |
| TransportDrains.OutrankedDrains | src/conversations/transport-manager.ts:83-89 | a concrete run from nothing after which a companion with an exchange in flight drains |
| TransportDrains.RestartRevives | src/conversations/lease.ts:79-83 | a concrete run: after a restart the draining companion gets its unexpired lease back and submits again under its epoch |
| TransportDrains.RenewalRevives | src/conversations/transport-manager.ts:99-104 | the same after a renewal in its name |
| TransportDrains.OtherBindingRevives | src/conversations/transport-manager.ts:129-133 | the same after another transport is granted another binding |
| Ledger.AllowedExactly | src/conversations/message-ledger.ts:24-26 | a message moves one stage at a time, and back only from CLAIMED to PENDING |
| Ledger.NextSequenceExactly | src/conversations/message-ledger.ts:60-63 | a binding's next sequence number is above all in use and is 0 or one more than one in use |
| Ledger.MaxSequenceBounds | src/conversations/message-ledger.ts:60-63 | the reduction is the least upper bound of the binding's sequence numbers, -1 if there are none |
| Ledger.FindPendingElements | src/conversations/message-ledger.ts:55-58 | the pending list holds exactly the binding's entries that are not consumed |
| Ledger.SortSorted | src/conversations/message-ledger.ts:57 | pending entries come in sequence order |
| Ledger.SortElements | src/conversations/message-ledger.ts:57 | sorting neither loses nor repeats an entry |
| Ledger.MessageLedger.Append | src/conversations/message-ledger.ts:31-37 | records a new message PENDING, accepts an identical one, refuses conflicting reuse of an id |
| Ledger.MessageLedger.RecordInboundConsumed | src/conversations/message-ledger.ts:39-46 | the same for inbound messages, recorded CONSUMED |
| Ledger.MessageLedger.Transition | src/conversations/message-ledger.ts:48-53 | moves an entry along the allowed table or changes nothing |
| Ledger.MessageLedger.NextSequenceForBinding | src/conversations/message-ledger.ts:60-63 | the reduction over the binding's records |
| Reconciliation.EntryExactly | src/conversations/reconcile.ts:20-56 | a sent message becomes RESPONDED if and only if a response to it in its own binding, task and run is shown, OBSERVED if only its request is, and nothing else moves |
| Reconciliation.AnswerIsFirst | src/conversations/reconcile.ts:23 | the response reported is the first one to the message |
| Reconciliation.ForeignMovesNothing | src/conversations/reconcile.ts:38-44 | observations of another binding, task or run move nothing and answer nothing |
| Reconciliation.AnswersInOrder | src/conversations/reconcile.ts:18-34 | the responses are those of the pending entries, in their order |
| Reconciliation.EntryAction | src/conversations/reconcile.ts:20-32 | for one entry, two passes are one pass over both lists, with the same response, reported once |
| Reconciliation.ReconcileAction | src/conversations/reconcile.ts:16-35 | reconciling is an action of observation lists under concatenation on ledgers |
| Reconciliation.ReconcileBySet | src/conversations/reconcile.ts:22-31 | the states do not depend on order or repetition of observations, and a repeated pass changes nothing |
| Reconciliation.ReconcileOnlyAdvances | src/conversations/reconcile.ts:25-31 | only SENT and OBSERVED entries of the binding move, and only forward |
| Reconciliation.AnsweredOnce | src/conversations/reconcile.ts:28-34 | however observations are split into passes, a request is answered at most once, by the response one pass would report |
| Reconcilers.ConversationReconciler.Reconcile | src/conversations/reconcile.ts:16-35 | the loop of single transitions equals the pointwise pass, reports the responses in sequence order and is legal for the delivery machine |
| Delivery.RunSound | src/chatgpt/supervisor-adapter.ts:170-181 | every action keeps the coupling: PENDING not delivered, CLAIMED at most once, later states exactly once |
| Delivery.DeathSound | src/chatgpt/supervisor-adapter.ts:170-181 | wherever a process dies, what it leaves is sound for the next one |
| Delivery.AtMostOnce | src/chatgpt/supervisor-adapter.ts:53-113 | over every history of crashes, restarts and failed sends the page gets each message at most once |
| Delivery.MessagesImmutable | src/conversations/message-ledger.ts:31-53 | recorded messages keep their place and immutable fields |
| Delivery.SequencesIncrease | src/chatgpt/supervisor-adapter.ts:213-215 | sequence numbers of a binding increase strictly in recording order over any restarts |
| Delivery.StrandedNeverResent | src/chatgpt/supervisor-adapter.ts:109-111 | an entry left CLAIMED stays so and is never sent again |
| Strandings.StrandedExactly | src/chatgpt/supervisor-adapter.ts:170-181 | a message is left CLAIMED with nobody sending it if and only if some process died between claiming it and confirming or taking it back |
| Strandings.FirstIsEarliest | src/chatgpt/supervisor-adapter.ts:54-56 | the request an adapter finds for a run is the pending one recorded first |
| Strandings.BlockedForGood | src/chatgpt/supervisor-adapter.ts:109-111 | once a stranded request is the one found for its run, every later search finds it, CLAIMED as it is and delivered no more often |
| Strandings.RunOneRequest | src/chatgpt/supervisor-adapter.ts:54-102 | over any history a run has at most one review request that is not consumed |
| Strandings.StrandedBlocksItsRun | src/chatgpt/supervisor-adapter.ts:109-111 | every stranded review request, however it came about, is what every later search for its run finds |
| SupervisorAdapters.NewRefs | src/context/broker.ts:118-128 | a manifest shares its refs with no earlier one unless it is empty |
| SupervisorAdapters.PayloadMatches | src/chatgpt/supervisor-adapter.ts:99-107 | a request taken up again has the payload it was recorded with if and only if there was no evidence then and is none now |
| Strandings.CrashStrands | src/chatgpt/supervisor-adapter.ts:102-111 | a crash right after the claim strands a new request that the page never got |
| SupervisorAdapters.ReviewOfReply | src/chatgpt/supervisor-adapter.ts:223-229 | a reply makes a review with its decision, task, run, as many findings and the first as summary, unless it asks for something without an instruction or has an empty finding |
| SupervisorAdapters.ExchangeReconciles | src/chatgpt/supervisor-adapter.ts:199-205 | the two observations of a finished exchange move its outbound entry to RESPONDED and nothing else |
| SupervisorAdapters.ChatGPTSupervisorAdapter.SendPending | src/chatgpt/supervisor-adapter.ts:170-181 | delivers once and ends SENT, or delivers nothing and ends PENDING |
| SupervisorAdapters.ChatGPTSupervisorAdapter.ReconcileExchange | src/chatgpt/supervisor-adapter.ts:199-202 | moves the outbound entry to RESPONDED and nothing else |
| SupervisorAdapters.ChatGPTSupervisorAdapter.RecordReply | src/chatgpt/supervisor-adapter.ts:207-210 | records the inbound message CONSUMED, correlated to its outbound, or reports conflicting reuse of its id |
| SupervisorAdapters.ChatGPTSupervisorAdapter.ConsumeExchange | src/chatgpt/supervisor-adapter.ts:192-211 | the outbound entry ends CONSUMED and the inbound message is recorded; "did not reconcile" is unreachable |
| SupervisorAdapters.ChatGPTSupervisorAdapter.RespondToContextRequest | src/chatgpt/supervisor-adapter.ts:134-168 | records and delivers one context response correlated to its request, or records nothing, exactly when the broker throws an error that is not its own |
| SupervisorAdapters.ChatGPTSupervisorAdapter.FinishRound | src/chatgpt/supervisor-adapter.ts:120-125 | a well-formed correlated review under a new id ends the exchange |
| SupervisorAdapters.ChatGPTSupervisorAdapter.AnswerRound | src/chatgpt/supervisor-adapter.ts:127-130 | a context request under a new id goes on exactly when it can be answered |
| SupervisorAdapters.ChatGPTSupervisorAdapter.TakeRound | src/chatgpt/supervisor-adapter.ts:117-131 | one reply closes its exchange and ends the review or opens the next round, exactly as what is to come foretells; otherwise the error says why, and is unavailability only when the transport fails |
| SupervisorAdapters.ChatGPTSupervisorAdapter.ReviewLoop | src/chatgpt/supervisor-adapter.ts:115-132 | returns exactly the review that comes after fewer context requests than replies are waited for, each answerable, or fails when none does |
| SupervisorAdapters.ChatGPTSupervisorAdapter.EnterExchange | src/chatgpt/supervisor-adapter.ts:53-111 | takes up the open request for the run or begins one, exactly when that can be done, and why not |
| SupervisorAdapters.ChatGPTSupervisorAdapter.CreateManifest | src/chatgpt/supervisor-adapter.ts:58-71 | draws new refs, so that an open request's payload matches only without evidence |
| SupervisorAdapters.ChatGPTSupervisorAdapter.BeginRequest | src/chatgpt/supervisor-adapter.ts:73-111 | records and sends a new request |
| SupervisorAdapters.ChatGPTSupervisorAdapter.ResumeRequest | src/chatgpt/supervisor-adapter.ts:107-112 | takes up a request of an earlier process, giving it to the page only if that one did not |
| SupervisorAdapters.ChatGPTSupervisorAdapter.RequestReview | src/chatgpt/supervisor-adapter.ts:53-113 | returns a review, saying what the last correlated reply said, if and only if, sends being accepted and ids new, k answerable context requests and then that review come within the replies waited for; it leaves exactly k+1 outbound and k+1 inbound entries, the resumed request among them if there was one, all CONSUMED, each answering the one before, and the page given each outbound once; a request found open is refused exactly when there was evidence at its time, is some now, or it is CLAIMED |
| Utf.ByteLengthIsEncodedLength | src/context/broker.ts:266-280 | the byte count is the length of the UTF-8 encoding |
| Utf.CutAtBoundary | src/context/broker.ts:266-280 | cutting between characters cuts the encoding in two |
| Utf.CutLongest | src/context/broker.ts:270-275 | the cut is between characters, fits the budget, and one more character would not |
| Utf.SplitUtf8 | src/context/broker.ts:266-280 | the loop finds that cut, or reports that no character fits |
| ContextBrokers.ContextBroker.DeliverContent | src/context/broker.ts:187-215 | budget check, cut, usage and continuation, for every branch |
| ContextBrokers.ContextBroker.FetchByContinuation | src/context/broker.ts:144-156 | a fetch from another scope leaves the token alone; any other spends it, expired or not, and delivers what it holds |
| ContextBrokers.ContextBroker.FetchContext | src/context/broker.ts:105-116 | a registered scope and the selector decide what is delivered |
| ContextBrokers.RefExactly | src/context/broker.ts:137-142 | a fetch by reference delivers if and only if the asker is registered, the evidence was registered under that very scope and its budget holds some of it; otherwise nothing changes, and why |
| ContextBrokers.TokenExactly | src/context/broker.ts:144-156 | the same for tokens, which must be live and the scope's own; any failed fetch in scope spends the token |
| ContextBrokers.QueryExactly | src/context/broker.ts:105-116 | the same for queries |
| ContextBrokers.AnnouncedExactly | src/context/broker.ts:118-135 | announced evidence can be fetched by its scope and by no other |
| ContextBrokers.ScopesKeptApart | src/context/broker.ts:240-255 | over any requests, every chunk delivered to a scope is a piece of evidence announced under that very scope or found by its own query |
| ContextBrokers.ContentConserved | src/context/broker.ts:144-215 | over any interleaving of requests, chunks delivered and the live token's rest make up the content, cut between characters; usage is what was delivered, within the cycle budget |
| ContextBrokers.ConservesBytes | src/context/broker.ts:266-280 | the encodings of the pieces, in order, are the encoding of the content |
| ContextBrokers.FetchSpendsToken | src/context/broker.ts:144-156 | a fetch in scope spends the token, and delivers if and only if it is in time and a character fits the budget left |
| ContextBrokers.DeliverFailsExactly | src/context/broker.ts:187-197 | a delivery fails if and only if the scope's budget is used up or does not hold one character, and then changes nothing |
| ContextBrokers.UnaffordableForGood | src/context/broker.ts:187-198 | what a scope's budget cannot hold it cannot hold after any further requests |
| ContextBrokers.SpentForever | src/context/broker.ts:144-156 | a spent token never works again |
| ContextBrokers.FullChunk | src/context/broker.ts:195-198 | a chunk that is not the last wastes at most three bytes of the response budget |
| ContextBrokers.TokenSurvives | src/context/broker.ts:144-156 | a token keeps what it holds over any requests of any scope that do not fetch it in its scope |
| ContextBrokers.ChainCompletes | src/context/broker.ts:187-215 | a chain of timely fetches, with any other requests served in between, never gets stuck and loses or repeats nothing, as long as the scope's budget left holds what is to come |
| ContextBrokers.ChainEnds | src/context/broker.ts:187-215 | such a chain has at most ceil(n / (B - 3)) chunks, whatever is served in between |
| ContextBrokers.OthersLeaveAffordable | src/context/broker.ts:187-215 | requests of other scopes and new evidence never make the next fetch unaffordable |
| Framing.HeaderRoundTrip | src/runtime/ipc.ts:23-24 | the 32-bit little-endian header determines the length |
| Framing.LengthRoundTrip | src/runtime/ipc.ts:37 | every four bytes are the header of some length |
| Framing.FrameDecoder.Push | src/runtime/ipc.ts:33-49 | a push drains the buffer and keeps the rest; an error loses the values of its push |
| Framing.DrainMore | src/runtime/ipc.ts:33-49 | draining can be interrupted anywhere and continued |
| Framing.ChunkingInvariance | src/native-host/framing.ts:18-36 | a stream cut anyhow gives the values and leftover of the whole, or stops with its error after a prefix of its values |
| Framing.TwoCuttings | src/native-host/framing.ts:18-36 | two cuttings of one stream agree on the error, and without one on values and leftover |
| Framing.DrainReads | src/runtime/ipc.ts:36-47 | what is decoded is read off the stream frame by frame, with the reason for stopping; nothing is invented or lost |
| Framing.ReadsDrain | src/runtime/ipc.ts:36-47 | every reading of a stream as frames and a stop is the one the decoder finds |
| Framing.RoundTrip | src/runtime/ipc.ts:20-50 | encoded values within both limits, cut anyhow, decode to exactly those values |
| Framing.GetsThrough | src/native-host/framing.ts:4-36 | the two limits alone decide whether a value is encoded and whether it is decoded or refused |
| Framing.TooLargeStays | src/runtime/ipc.ts:38 | after an oversized header every later push fails the same way |
| CommandLines.TwoPasses | src/setup/service.ts:44 | the two replacements together double backslashes before quotes and at the end, and escape quotes |
| CommandLines.ScanQuoted | src/setup/service.ts:42-45 | a quoted argument, whatever it holds, is read back as it was, and an empty one as nothing |
| CommandLines.SplitJoined | src/setup/service.ts:38-40 | a command line reads back as exactly its non-empty arguments |
| CommandLines.ArgumentsRoundTrip | src/setup/service.ts:38-45 | all arguments come back if and only if none is empty |
| CommandLines.ProgramQuoted | src/setup/service.ts:38-45 | read as the program's name, a quoted text comes back with its trailing backslashes doubled |
| CommandLines.CommandRoundTrip | src/setup/service.ts:38-45 | with the name read by its own rule, the exact condition under which name and arguments come back |

## Left out

- Browser, DOM and Playwright drivers, extension, popup, CLI, sockets, login, git and registry commands: input and
  output only.
- The state store as files, its listing order and path checks: maps with atomic writes; the pending list orders
  equal sequence numbers by recording order where the source compares creation times.
- The store is the part that belongs to one task; `run` for a task that is already persisted starts from whatever
  prompts, results and reviews are there.
- The event USER_RESOLVED is in the transition table; nothing in the orchestrator fires it.
- Timestamps other than start and expiry times, event logs, notifications and log details.
- OrchestratorObject.Orchestrator.Run: does not model task validation and store initialisation, which come before
  the first record.
- DurableMachine.Step: the calls that execute a worker and file its result are two steps, so the worker's own
  effects before it returns are not seen.
- OrchestratorTransparency.ReachableTransparency: excludes a wall-clock limit, under which a later clock alone
  changes the outcome.
- Transports.TransportManager.Acquire: one atomic call; two calls interleaved at an await could both take the same
  epoch.
- Companions.BackgroundWebTransport.Connect: waiting for the page to become ready is one outcome; the details shown
  to users and the kinds of page failure are left out.
- SupervisorAdapters.ChatGPTSupervisorAdapter.RequestReview: the evidence for the manifest is a parameter, and a
  workspace that cannot be opened is left out; payloads of context responses appear only through their hashes; no
  account is given of a call that fails.
- SupervisorAdapters.ChatGPTSupervisorAdapter.ReviewLoop: the number of replies the transport yields is a parameter,
  because a supervisor may ask for context for ever.
- ContextBrokers.ContextBroker.FetchContext: a query's content comes from the workspace and is a parameter; creating
  a manifest is registering a scope and evidence items one at a time; capability parsing and summaries are left out.
  A scope is its three ids rather than their concatenation.
- ContextBrokers.ChainEnds: speaks of chains at each of whose fetches the scope's budget left holds what is still to
  come; what the scope spends in between may use it up, and then the last chunks are cut by the cycle budget.
- Framing.FrameDecoder.Push: JSON text is abstract; schema parsing of runtime frames on top of the decoder is left
  out.
- CommandLines.SplitCommand: white space is the Basic Multilingual Plane's, which is all of JavaScript's `\s`;
  registering the command is left out.
- Prompt compiler, review packet, page compatibility, doctor, single-instance lock, workspace policy and session
  state tables: easy or resting on code that is not part of this model.
