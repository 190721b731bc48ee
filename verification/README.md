# A verified model of the OVCA controllers

OVCA drives goals through an Engineer, a Verifier, a Reviewer and an Auditor. Its weight lies in controllers
that must survive a crash at any point: a state record guarded by compare-and-swap, an append-only linked event
log, and a workspace, which every run must keep consistent. This project models those controllers as step
systems over one durable world and proves what holds after every run; beside them it models the self-contained
algorithms of the repository (glob matcher, ANSI stripper, single-flight cache, wire codec, redacting trace).

`dafny verify dfyconfig.toml` checks everything.

## How it is built

The Engineer-to-Verifier loop is in modules of its own. `EngineerVerifierKernel` is the store's side: which states are
valid and which may follow which. `EngineerVerifierCommands` is the controller's side: every durable write,
when it is attempted and what it proposes. `EngineerVerifierRuns` puts any number of drivers, each with what it
loaded and what it just learnt, onto the shared record, log and workspace roots; a crash drops a driver, a
resume is a new load, and each action is one atomic step, so a crash between any two durable effects is a run.
Over these runs `Outbox`, `Calls`, `Effects`, `Order` and `Terminal` prove their invariants, and `Agreement` says
exactly which writes the store refuses. `Stuck` proves the states no continuation leaves, `Continuations` carries
on what can be carried on, and `Endings` joins the two into conditions for a run nobody is working on: when it
can be finished, when its cancellation is carried out, when a write that was made can be recorded; `Interrupted`
adds the crash between a swap and the delivery of its event. A recovery is two steps there, as in the code: the
swap that fences the lease, and then the root, which must be as it was recorded. `Examples` builds runs that finish
and runs that reach each dead end.
`EngineerVerifierLoop` is the controller as a class: each method is proved to be a run of the step system, so
the invariants hold at every point inside it, and each states exactly when it succeeds, given the executor's
answer, the first effect the broker denies, the outcome of the input checks and the verdict. `Success` holds these
conditions, and `AFittingResumeFinishesIff` says that one resume finishes what can be finished.

`ReviewAuditKernel`, `ReviewAuditRuns` and `ReviewAuditLoop` do the same for the review and audit loop,
`ReviewProjection` for the projection of its two decisions into the log, and `RepairChain` for chains of repair
runs. There the other drivers race with the object: between any two of its steps they may take any of theirs.
`Replay` and `GoalRuntime` are the event stream's fold and the two ways to append to it, and `ManagedGoal` puts both
controllers, the projection and the runtime onto one log and states what stands behind a completed goal;
`ManagedGoalExample` drives one from its creation to a completion.

## Assumptions

- One run's log is modelled; its events carry no run id.
- A digest is represented by the values it covers, so digests never collide. The state digest leaves out the
  pending projection, the cursor and the workspace flags, as the code does
  (rust/ovca-langgraph/src/engineer_verifier_loop.rs:1716-1721, 2635-2640).
- A compare-and-swap applies only when revision and digest are those loaded. The log of a run has one writer at a
  time: the check and the append of a reconciliation are one step.
- The clock never goes back: a write's time is at least the state's.
- Only the broker writes into a workspace root; its write is atomic. Roots may be removed at any time.
- Callers of the goal runtime use event ids of their own, not those derived from phases or review results.
- The executor, the verifier, the Reviewer and Auditor, the evidence bank, the checks of replay inputs, the clock
  and the broker's denials are arbitrary inputs. Which decisions are supported by evidence is part of the packet or the goal.
- Identifiers, texts of messages and paths are integers; the order of paths is byte order.
- The kernel, store, broker and replay that the controllers call are modelled from their sources in
  rust/ovca-runtime-core and rust/ovca-types.

## Where the code does not do what it seems to promise

Each of these is proved for every state of the family. For the Engineer-to-Verifier loop `EngineerVerifierExamples`
gives runs that get there, and `EngineerVerifierEndings`, `EngineerVerifierInterrupted` and `EngineerVerifierTerminal`
say exactly when the promise is kept.

- A resume does not finish every interrupted run (`UnattendedRunIsFinishedIff`, `InterruptedRunIsFinishedIff`,
  `AFittingResumeFinishesIff`). It fails when the lease is out of reach: closing a workspace and the transition it is
  closed for are two writes, and after a crash between them no lease can be recovered. It fails when the root is
  gone, which the recovery demands (rust/ovca-runtime-core/src/workspace_capability.rs:1307-1373): every close
  removes it before the write that says so, so a driver that stops between the two strands its run, and a broker
  that is dropped removes the roots it owns (`ALostRootStrandsTheRun`, `ARemovedRootStrandsItsRun`). It fails when
  the last effect was denied and the driver stopped before it failed the run: the resume goes on to verification and
  is refused there. It fails when a prepared write follows a denial, when the log went on behind the cursor, and when
  a pending event cannot be reconciled.
- A cancellation is not always carried out (`RecordedCancellationIsCarriedOutIff`). It needs the lease and the root
  as above. One that meets a prepared but unapplied write asks the kernel to drop it, which demands a ledger entry;
  one accepted after the last effect, or after the verifier started, is ignored by the seal, which demands that there
  is none.
- After a denied effect a resumed run can apply the next planned write and never record it
  (`MadeWriteIsRecordedIff`, `ADeniedRunWritesInVain`).
- Recovering the lease of a run in Reviewing moves its controller time, and the terminal chain validator, which
  wants that time equal to the last transition's, refuses the chain from then on
  (`RecoveringAFinishedRunBreaksItsChain`, `FinishedRunIsAcceptedIff`).
- The same validator demands one execution binding along the chain, and a retry makes a new one, so a retried run
  is never accepted and its decisions are never projected (`FinishedRunIsAcceptedIff`,
  `RetriedRunsAreNeverProjected`).
- The completion gate compares decisions, not where they are logged: the pair follows an accepted chain exactly
  when no caller appended a decision by hand (`CompletedGoalsAreEarned`, `HandWrittenPairIsAdmitted`). So a run
  of two attempts, whose chain is refused for good, can still complete its goal
  (`AHandWrittenPairCompletesARetriedRun`).
- The transition for exhausted retries is unreachable (`RetryIsNeverExhausted`).
- A star byte in the text of a glob match is consumed literally, so the match can be missed
  (`CompleteExactlyOnStarFreeTexts`).
- A caller dropped while its index is built releases the mutex while the build goes on, so two builds of one
  brain can run; exactly when is `BuildsFlySinglyIff`.

## Model

| member | source | states |
|---|---|---|
| EngineerVerifierOutbox.TransitionsAreLoggedExactlyOnce | rust/ovca-langgraph/src/engineer_verifier_loop.rs:2443-2641 | over every run of any number of drivers, with crashes between any two durable effects: the log extends the base log, its phase events are the committed transitions in revision order, each once, except that a last one may still be pending; the log stays linked and the revision counts the transitions |
| EngineerVerifierOutbox.ReconcilingIsIdempotent | rust/ovca-langgraph/src/engineer_verifier_loop.rs:2527-2641 | reconciling twice is reconciling once; an unlogged pending event whose cursor is not the end of the log changes nothing |
| EngineerVerifierOutbox.RunsOnlyAppend | rust/ovca-langgraph/src/engineer_verifier_loop.rs:2590-2641 | no action ever shortens or rewrites the log or the committed transitions |
| EngineerVerifierOutbox.EveryRunKeepsOutbox | rust/ovca-langgraph/src/engineer_verifier_loop.rs:1622-1634 | every run keeps the outbox invariant that ties state, pending event, cursor, log and each driver's snapshot together |
| EngineerVerifierOutbox.PendingIsInTheLogIffDelivered | rust/ovca-langgraph/src/engineer_verifier_loop.rs:2560-2630 | the pending event's id occurs in the log exactly when the log already holds all committed transitions |
| EngineerVerifierCalls.ExecutorIsCalledAtMostOncePerAttempt | rust/ovca-langgraph/src/engineer_verifier_loop.rs:824-874 | over every run no attempt's executor call begins twice, and the calls number at most the attempt, hence at most max_attempts |
| EngineerVerifierCalls.RetryIsNeverExhausted | rust/ovca-langgraph/src/engineer_verifier_loop.rs:696-711 | a run waiting for a retry always has an attempt left, so the RetryExhausted transition is never attempted in any reachable state; each attempt so far called the executor |
| EngineerVerifierCalls.CancellationIsFinal | rust/ovca-langgraph/src/engineer_verifier_loop.rs:276-312 | once a cancellation is committed it stays unchanged, the run is in Reviewing after no continuation, and if no executor call had started none starts |
| EngineerVerifierCalls.CancellationStays | rust/ovca-langgraph/src/engineer_verifier_loop.rs:1550-1575 | the same from any state satisfying the invariant, also keeping the executor record |
| EngineerVerifierEffects.RootIsTheReplayedLedger | rust/ovca-langgraph/src/engineer_verifier_loop.rs:987-1165 | in every reachable state with an open workspace the ledger is valid and the root holds the initial snapshot with the ledger's applied writes folded in order, plus at most the one prepared write, which is the next planned effect |
| EngineerVerifierEffects.InspectionFindsNoThirdState | rust/ovca-runtime-core/src/workspace_capability.rs:1643-1697 | with only the broker writing, inspecting a prepared write never finds a third content |
| EngineerVerifierEffects.PreparedIsTheNextWrite | rust/ovca-langgraph/src/engineer_verifier_loop.rs:1782-1857 | a prepared write in a valid state is the planned effect after the ledger, on the files the ledger left |
| EngineerVerifierEffects.BridgeShowsWhatTheLedgerWrote | rust/ovca-langgraph/src/engineer_verifier_loop.rs:2100-2175 | the diff bridge handed to the verifier is valid and lists exactly the planned write if one was applied, and nothing otherwise |
| EngineerVerifierEffects.DroppingAPreparedWriteIsRefused | rust/ovca-runtime-core/src/engineer_verifier.rs:396-413 | the controller's write that gives up a prepared but unapplied write on cancellation (lines 1047-1059 of the controller) is never a valid successor |
| EngineerVerifierEffects.EveryRunKeepsEffects | rust/ovca-langgraph/src/engineer_verifier_loop.rs:1110-1163 | every run keeps: the stored state is valid, its ledger explains its current snapshot, and the root is explained by the two |
| WorkspaceFiles.PreparedListIsExact | rust/ovca-runtime-core/src/engineer_verifier.rs:1555-1559 | the list the controller builds by replace-or-push and sort is the list the kernel recomputes by binary search and insertion |
| WorkspaceFiles.SearchIsAScan | rust/ovca-runtime-core/src/engineer_verifier.rs:1556-1559 | the halving search of a sorted list ends at the first path not below the one sought, found or not |
| WorkspaceFiles.SearchFindsPosition | rust/ovca-runtime-core/src/engineer_verifier.rs:1556-1559 | it finds a path exactly when the list holds it, at the place a scan finds |
| WorkspaceFiles.WriteKeepsListAndOtherPaths | rust/ovca-langgraph/src/engineer_verifier_loop.rs:1801-1836 | preparing a write keeps the list sorted and unique and changes what is found at its own path only |
| WorkspaceFiles.ChangedPathsAreTheDifference | rust/ovca-langgraph/src/engineer_verifier_loop.rs:2112-2130 | changed_paths is strictly ascending and holds exactly the paths whose files differ |
| WorkspaceFiles.BridgeReproducesTheAfterList | rust/ovca-langgraph/src/engineer_verifier_loop.rs:2112-2146 | replacing the before identities by the after identities in the initial snapshot gives the current snapshot |
| WorkspaceFiles.BridgeValidIffNothingDeleted | rust/ovca-runtime-core/src/engineer_verifier.rs:1052-1102 | the kernel accepts the bridge of two snapshots exactly when no initial file disappeared |
| WorkspaceFiles.SortedListsAreExtensional | rust/ovca-langgraph/src/engineer_verifier_loop.rs:1801-1836 | a sorted unique list is determined by what it holds at each path |
| EngineerVerifierTerminal.AcceptedChainHoldsAPhasePath | rust/ovca-langgraph/src/engineer_verifier_loop.rs:2752-2881 | any log the validator accepts contains a linked phase path from Planned to Reviewing with revisions 1..k, allowed transitions, times never going back, attempts rising only at retry claims, ending in the given state |
| EngineerVerifierTerminal.FinishedRunIsAcceptedIff | rust/ovca-langgraph/src/engineer_verifier_loop.rs:2811-2875 | the log of a run that ended in Reviewing is accepted if and only if it took one attempt, its lease was not recovered since, and what precedes its first phase event is a valid creation of the run |
| EngineerVerifierTerminal.RecoveringAFinishedRunBreaksItsChain | rust/ovca-langgraph/src/engineer_verifier_loop.rs:617-660 | once recovery moves controller_time past the last transition, the chain is refused after every continuation |
| EngineerVerifierTerminal.FinishedRunsStayFinished | rust/ovca-runtime-core/src/engineer_verifier.rs:222-234 | a terminal phase and the committed transitions never change again |
| EngineerVerifierAgreement.StoreAcceptsUnlessRefused | rust/ovca-runtime-core/src/engineer_verifier.rs:197-339 | for every sound state and every write whose guard holds in it (a superset of what the controller attempts), the store accepts it if and only if it is not one of the listed refused writes |
| EngineerVerifierAgreement.EveryRunAgrees | rust/ovca-runtime-core/src/sqlite_execution.rs:353-406 | the same for every reachable state |
| EngineerVerifierAgreement.PreparedWritesAreNeverRefused | rust/ovca-langgraph/src/engineer_verifier_loop.rs:359-385 | because a plan whose write would change nothing is closed before it is installed, every write prepared in a reachable state is accepted |
| EngineerVerifierAgreement.WriteAfterADenialIsNeverRecorded | rust/ovca-langgraph/src/engineer_verifier_loop.rs:1087-1163 | in any sound state after a denial the store accepts the preparation of the next write and refuses its receipt and its reconciliation; over runs this is MadeWriteIsRecordedIff, and ADeniedRunWritesInVain shows one |
| EngineerVerifierOrder.EveryRunIsOrderly | rust/ovca-langgraph/src/engineer_verifier_loop.rs:877-985 | over every run nothing is resolved or sealed before the executor completed, the result is the executor's, and a run under verification is sealed and not yet admitted |
| EngineerVerifierOrder.ADenialIsTheLastEntry | rust/ovca-runtime-core/src/engineer_verifier.rs:942-960 | once a denial is the last ledger entry, over every continuation by any drivers the ledger and the attempt stay, and the run is never verified, reviewed or retried |
| EngineerVerifierStuck.CrashAfterCloseStrandsTheRun | rust/ovca-runtime-core/src/sqlite_execution.rs:495-505 | with the workspace closed or given up, or the lease run out, and no driver up to date owning it, phase and ledger stay over every continuation |
| EngineerVerifierStuck.DeadEndsAreFinal | rust/ovca-langgraph/src/engineer_verifier_loop.rs:995-1000 | so they do when every effect is resolved and the last was denied or a cancellation came after it, and when a cancellation came after the verifier started, unless an owner just saw the denial or reconciled the write |
| EngineerVerifierStuck.LateCancellationIsNeverCarriedOut | rust/ovca-runtime-core/src/workspace_capability.rs:668-697 | the cancellation half of it: the run never ends |
| EngineerVerifierStuck.DeniedLastEffectStrandsTheRun | rust/ovca-langgraph/src/engineer_verifier_loop.rs:1151-1163 | the denial half of it: after a crash between the denied receipt and the failure the run stays in Engineering |
| EngineerVerifierStuck.CancelledPreparedWriteIsStuck | rust/ovca-langgraph/src/engineer_verifier_loop.rs:1047-1059 | a prepared write that was cancelled before it was made, or that follows a denial, stays prepared over every continuation that leaves its root alone |
| EngineerVerifierStuck.ALostRootStrandsTheRun | rust/ovca-runtime-core/src/workspace_capability.rs:1307-1373 | with the root gone in the middle of a run and no driver up to date owning the lease, phase and ledger stay over every continuation: the lease can be fenced again and again, but its root never recovered |
| EngineerVerifierEndings.UnattendedRunIsFinishedIff | rust/ovca-langgraph/src/engineer_verifier_loop.rs:465-615 | a reachable run in Engineering or Verifying, with no event pending and nobody up to date holding or fencing its lease, can be carried to an end or a retry, by drivers that reconcile before they recover or move and leave prepared roots alone, if and only if the lease is open and in its window, the root is there, the log ends at the cursor, the state is no dead end, and no prepared write is held by its root |
| EngineerVerifierEndings.RecordedCancellationIsCarriedOutIff | rust/ovca-langgraph/src/engineer_verifier_loop.rs:510-600 | its recorded cancellation can be carried out if and only if the lease can be taken over with its root, and the call record, the effects, the root's files and the verifier still allow it |
| EngineerVerifierEndings.AskingNowIsCarriedOutIff | rust/ovca-langgraph/src/engineer_verifier_loop.rs:276-312 | what a caller can check before asking, when no event is pending: a cancellation asked for now can be carried out under the same condition on the state before |
| EngineerVerifierEndings.MadeWriteIsRecordedIff | rust/ovca-langgraph/src/engineer_verifier_loop.rs:1062-1087 | a prepared write that the broker made can be recorded if and only if the lease can be taken over and the entry before it is no denial; a cancellation does not matter |
| EngineerVerifierEndings.AStrayEventStopsTheRun | rust/ovca-langgraph/src/engineer_verifier_loop.rs:2532-2541 | a log that goes on after the cursor stops every resume for good |
| EngineerVerifierEndings.AFittingResumeFinishesIff | rust/ovca-langgraph/src/engineer_verifier_loop.rs:465-615 | one call of ResumeLeased by a new instance within the lease, with the inputs of an earlier seal, passing checks and a valid outcome, succeeds if and only if the run can be finished at all and does not stand after a denial without a cancellation |
| EngineerVerifierInterrupted.InterruptedRunIsFinishedIff | rust/ovca-langgraph/src/engineer_verifier_loop.rs:2527-2641 | in Engineering or Verifying, with the event of the last transition still pending and nobody up to date holding the lease, the run can be finished if and only if that event can be reconciled, as the tail of the log or at the cursor, and the run this leaves meets the condition above |
| EngineerVerifierInterrupted.InterruptedCancellationIsCarriedOutIff | rust/ovca-langgraph/src/engineer_verifier_loop.rs:2527-2641 | likewise its recorded cancellation: if and only if the event can be reconciled and the run this leaves meets the condition on cancellations |
| EngineerVerifierInterrupted.EveryRunKeepsPending | rust/ovca-langgraph/src/engineer_verifier_loop.rs:2560-2630 | over every run a pending event says what its state says and the cursor points into the log, so only the log's end can keep the event from being reconciled |
| EngineerVerifierExamples.ARunFinishes | rust/ovca-langgraph/src/engineer_verifier_loop.rs:333-463 | some run of a plan with one write goes through every step to Reviewing, with the file written and its chain accepted, so the theorems above speak about runs that exist |
| EngineerVerifierExamples.APreparedWriteBlocksItsCancellation | rust/ovca-runtime-core/src/engineer_verifier.rs:396-413 | some run records a cancellation while a write is prepared, and no continuation that leaves the root alone ends it |
| EngineerVerifierExamples.ALateCancellationIsIgnored | rust/ovca-runtime-core/src/workspace_capability.rs:668-697 | some run records a cancellation after its last effect, and some while the verifier runs, and no continuation ends either |
| EngineerVerifierExamples.AStoppedDriverStrandsItsRun | rust/ovca-runtime-core/src/sqlite_execution.rs:495-505 | some run whose executor failed stays in Engineering over every continuation, because its driver stopped after closing the workspace |
| EngineerVerifierExamples.ARemovedRootStrandsItsRun | rust/ovca-langgraph/src/engineer_verifier_loop.rs:1636-1656 | some run whose executor failed stays in Engineering over every continuation, with its lease open, because its driver stopped after removing the root and before writing that the workspace is closed |
| EngineerVerifierExamples.ADeniedEffectStrandsItsRun | rust/ovca-langgraph/src/engineer_verifier_loop.rs:1151-1163 | some run whose last effect was denied stays in Engineering over every continuation, because its driver stopped before failing it |
| EngineerVerifierExamples.ADeniedRunWritesInVain | rust/ovca-langgraph/src/engineer_verifier_loop.rs:1087-1163 | some run with a denied read is recovered and writes its file; the root is then ahead of the recorded snapshot, the write can never be recorded and the run never finished |
| EngineerVerifierExamples.ARetriedRunIsNeverProjected | rust/ovca-langgraph/src/engineer_verifier_loop.rs:2829-2853 | some run reaches Reviewing in its second attempt, and no pair is ever projected for it |
| EngineerVerifierExamples.ARecoveryCostsTheChain | rust/ovca-langgraph/src/engineer_verifier_loop.rs:617-660 | some finished run has an accepted chain that is refused for good after one resume that recovers its lease |
| EngineerVerifierLoop.Loop.CasReplace | rust/ovca-langgraph/src/engineer_verifier_loop.rs:1680-1693 | applied exactly when the driver holds the present state and the write is attempted, permitted, changing and not refused; then revision, state, driver and committed list are the step system's, otherwise nothing changes |
| EngineerVerifierLoop.Loop.ReconcilePending | rust/ovca-langgraph/src/engineer_verifier_loop.rs:2527-2641 | succeeds exactly when the log ends at the stored cursor or the pending event is its tail or can be appended there; then the pending event is in the log once and cleared |
| EngineerVerifierLoop.Loop.ReplaceWithEvent | rust/ovca-langgraph/src/engineer_verifier_loop.rs:2443-2525 | a transition's state and event are written in one swap, exactly when the log ends at the cursor and the write succeeds; afterwards reconciling must append that event |
| EngineerVerifierLoop.Loop.TransitionWithEvent | rust/ovca-langgraph/src/engineer_verifier_loop.rs:1622-1634 | succeeds exactly under those conditions; the new state is the moved one and the log grows by exactly its event; otherwise neither changes |
| EngineerVerifierLoop.Loop.InvokeExecutor | rust/ovca-langgraph/src/engineer_verifier_loop.rs:824-874 | the executor is called exactly when the Started record was accepted, once, and its outcome recorded exactly when valid and not a completion on a closed workspace |
| EngineerVerifierLoop.Loop.RequestCancellation | rust/ovca-langgraph/src/engineer_verifier_loop.rs:276-312 | answers AlreadyCancelled, pending or refusal exactly by phase, recorded request and clock; never replaces a recorded request and never moves the phase |
| EngineerVerifierLoop.Loop.ExecuteEffects | rust/ovca-langgraph/src/engineer_verifier_loop.rs:987-1165 | terminates; succeeds exactly when every effect is resolved, or a cancellation or a lost root ends the run with the log at the cursor, or nothing was denied, no cancellation is in the way, the root is there and, where the broker denies an effect, the log is at the cursor; then every planned effect is in the ledger, or the run ended Failed or Cancelled |
| EngineerVerifierLoop.Loop.PrepareNext | rust/ovca-langgraph/src/engineer_verifier_loop.rs:1035-1120 | one round before the broker call, with its exact outcome: stops for a cancellation, prepares the planned write, settles an earlier prepared write by what is in the root, and fails to drop one that was cancelled; a prepared write is never refused |
| EngineerVerifierLoop.Loop.MakeAndRecord | rust/ovca-langgraph/src/engineer_verifier_loop.rs:1122-1163 | the receipt is recorded exactly when nothing was denied before and the root is there or the broker denies; a denial then fails the run exactly when the log is at the cursor |
| EngineerVerifierLoop.Loop.InspectPrepared | rust/ovca-runtime-core/src/workspace_capability.rs:1656-1697 | returns missing, expected-before, intended-after or third state by the exact files and changes nothing |
| EngineerVerifierLoop.Loop.CloseLease | rust/ovca-langgraph/src/engineer_verifier_loop.rs:1716-1721 | removes the root and marks the workspace closed, exactly when the store accepts it |
| EngineerVerifierLoop.Loop.CloseAndTransition | rust/ovca-langgraph/src/engineer_verifier_loop.rs:1636-1656 | succeeds exactly when both writes do; then the workspace is closed, its root gone, and the log one event longer |
| EngineerVerifierLoop.Loop.AdmitObserved | rust/ovca-langgraph/src/engineer_verifier_loop.rs:1475-1620 | moves to Cancelled when a cancellation is recorded and to Reviewing otherwise, exactly when the log ends at the cursor and the write succeeds |
| EngineerVerifierLoop.Loop.VerifyAndAdmit | rust/ovca-langgraph/src/engineer_verifier_loop.rs:1167-1284 | succeeds exactly when the checks of its inputs pass, the root is there, no cancellation is recorded, nothing was denied, an earlier seal was made with the same inputs, and the log is at the cursor: nothing after the seal can fail; ends Reviewing on a passing verdict and Failed otherwise |
| EngineerVerifierLoop.Loop.ContinueAfterExecutor | rust/ovca-langgraph/src/engineer_verifier_loop.rs:877-985 | succeeds exactly when the outcome is recorded and the log is at the cursor, for an attempt that did not complete, and otherwise when effects and seal do; retry waits, failure and timeout fail, cancelled cancels, completion goes on to the verifier |
| EngineerVerifierLoop.Loop.ContinueLeased | rust/ovca-langgraph/src/engineer_verifier_loop.rs:508-615 | succeeds exactly when the step its executor record asks for does: a Started record ends Failed without a call, a cancellation known before the call ends Cancelled without one, otherwise the outcome decides |
| EngineerVerifierLoop.Loop.ResumeLeased | rust/ovca-langgraph/src/engineer_verifier_loop.rs:465-560 | a fresh load, reconciliation, fencing and recovery of the root before it; succeeds exactly when the event can be reconciled, the lease is open to the new instance, the root is there as it was recorded, and what the record asks for does; the executor is called at most once, and never if its record had started |
| EngineerVerifierLoop.Loop.RecoverLease | rust/ovca-runtime-core/src/workspace_capability.rs:1307-1373 | a fenced lease is worth its root exactly when the root is there with the files last recorded or those of the prepared write and nobody closed or fenced it since; nothing durable changes |
| EngineerVerifierLoop.Loop.ResumeVerifying | rust/ovca-langgraph/src/engineer_verifier_loop.rs:1286-1473 | succeeds exactly when the checks pass, the log is at the cursor, and the publication was observed, or a verification not begun is cancelled or has its root, or one begun has its root and no cancellation; the verdict decides between Reviewing and Failed |
| EngineerVerifierLoop.Loop.ClaimFresh | rust/ovca-langgraph/src/engineer_verifier_loop.rs:333-440 | succeeds exactly when the root is new, the plan's write changes something and the claimed state is valid; then state and log hold the first transition |
| EngineerVerifierLoop.Loop.DriveFresh | rust/ovca-langgraph/src/engineer_verifier_loop.rs:333-463 | a run from nothing succeeds exactly when its root is new, the plan can be claimed, the outcome is valid, and a completed one passes the checks or is denied an effect; ends as its outcome says after at most one call |
| EngineerVerifierLoop.Loop.ResumeRetryPending | rust/ovca-langgraph/src/engineer_verifier_loop.rs:662-821 | a cancelled run ends Cancelled exactly when the log is at the cursor; a root still present leaves everything as it is; otherwise the next attempt succeeds exactly when its claim is accepted at the cursor and a fresh attempt does, after at most one call |
| ReviewAuditKernel.EveryWriteDecreases | rust/ovca-runtime-core/src/independent_review.rs:377-484 | every accepted write strictly decreases a measure, so a resolved review is never written again |
| ReviewAuditKernel.PassMeansTwoPasses | rust/ovca-runtime-core/src/independent_review.rs:755-778 | a valid ResolvedPass holds two supported Pass decisions without findings, bound by their result digests |
| ReviewAuditKernel.SortedCriteriaAreExactlyThose | rust/ovca-langgraph/src/review_audit_loop.rs:1057-1070 | the criteria sent to repair are strictly sorted and exactly the unsatisfied ones of either decision |
| ReviewAuditRuns.EveryWriteIsAccepted | rust/ovca-langgraph/src/review_audit_loop.rs:1118-1135 | the kernel accepts every write the controller attempts on a valid state |
| ReviewAuditRuns.EveryUnresolvedReviewMovesOn | rust/ovca-langgraph/src/review_audit_loop.rs:204-249 | in every valid unresolved state a driver is refused exactly for auditor inputs other than those stored or a successor other than the derived one; otherwise its step is enabled, accepted and decreases the measure |
| ReviewAuditRuns.ReviewerAndAuditorAreCalledAtMostOnce | rust/ovca-langgraph/src/review_audit_loop.rs:251-308 | over every run with racing drivers and crashes the Reviewer and the Auditor are each called at most once, the Auditor only after a completed review |
| ReviewAuditRuns.RunsMoveForward | rust/ovca-langgraph/src/review_audit_loop.rs:165-202 | phases only move forward, terminal ones stay, and the number of writes is bounded by the measure spent |
| ReviewAuditRuns.PassesAreEarned | rust/ovca-langgraph/src/review_audit_loop.rs:445-530 | a run in ResolvedPass made both calls and both answered a supported Pass |
| ReviewAuditLoop.ReviewLoop.Drive | rust/ovca-langgraph/src/review_audit_loop.rs:165-202 | terminates, with other drivers writing at any point: resolved (a pass only with two supported passes, a repair only for the successor given), or in progress because another driver wrote, or refused, for an invalid or other packet exactly and for other inputs, another successor or an unanswered call; at most one call of each role |
| ReviewAuditLoop.ReviewLoop.ResumeStep | rust/ovca-langgraph/src/review_audit_loop.rs:204-249 | one round decreases the measure, or another driver wrote, or it is refused exactly for inputs that do not fit, without a write, or for an unanswered call |
| ReviewAuditLoop.ReviewLoop.StartReview | rust/ovca-langgraph/src/review_audit_loop.rs:251-308 | the Started record comes first, then the one Reviewer call, whose outcome is what is recorded; a lost swap ends the round, an unanswered call leaves the Started record |
| ReviewAuditLoop.ReviewLoop.StartAudit | rust/ovca-langgraph/src/review_audit_loop.rs:377-443 | the same for the Auditor |
| ReviewProjection.Classify | rust/ovca-langgraph/src/review_audit_loop.rs:819-898 | the loop with its two indices returns Absent, ReviewOnly or Complete exactly on the logs of those shapes, and an error on all others |
| ReviewProjection.ProjectionIsCrashSafe | rust/ovca-langgraph/src/review_audit_loop.rs:638-769 | from any log of one of the three shapes, projecting completes the pair; stopping after the first append and projecting again gives the same log; projecting once more changes nothing; what was there stays |
| ReviewProjection.DecisionsAreProjectedInOrder | rust/ovca-langgraph/src/review_audit_loop.rs:790-810 | under any sequence of projections, crashes and unrelated appends, what follows the terminal event begins with nothing, the review event, or the review then the audit event |
| ReviewProjection.PairOccursAtMostOnce | rust/ovca-langgraph/src/review_audit_loop.rs:819-898 | in such a log each of the two events occurs at most once |
| ReviewProjection.LaterEventsKeepTheChain | rust/ovca-langgraph/src/engineer_verifier_loop.rs:2752-2799 | an accepted chain stays accepted when linked events with new ids follow it |
| ReviewProjection.RetriedRunsAreNeverProjected | rust/ovca-langgraph/src/review_audit_loop.rs:771-787 | a run that took more than one attempt never gets its decisions projected |
| ReviewProjection.DecisionLog.ProjectPassingPair | rust/ovca-langgraph/src/review_audit_loop.rs:638-769 | the log becomes the projected one exactly when the chain is accepted and the events have one of the three shapes; it reports success exactly when the pair is complete |
| RepairChain.RepairChainsAreBounded | rust/ovca-langgraph/src/review_audit_loop.rs:931-965 | over every history each run ends a chain of linked directives with cycles 0,1,...,k, k at most the bound, one root, goal, task and bound throughout, and its failed predecessor has no other successor |
| RepairChain.SuccessorIsUnique | rust/ovca-langgraph/src/review_audit_loop.rs:931-965 | two stored repair runs with the same predecessor are one run |
| RepairChain.DirectedRunsDiffer | rust/ovca-types/src/independent_review.rs:815-847 | equal successor ids come only from the same root, cycle, review result and audit result |
| RepairChain.EveryRunEndsABoundedChain | rust/ovca-langgraph/src/review_audit_loop.rs:1043-1106 | from any store that satisfies the invariant, the chain behind a run exists and its cycle is within the bound |
| Replay.ReplayIsPrefixClosed | rust/ovca-runtime-core/src/replay.rs:448-861 | a stream that replays has only prefixes that replay, and its last event has the next sequence number, the previous id and a new id |
| Replay.ReplayGoesOn | rust/ovca-runtime-core/src/replay.rs:448-861 | a stream that replays goes on with exactly what the fold makes of an event that continues it |
| Replay.NoSecondCopy | rust/ovca-runtime-core/src/replay.rs:968-1045 | an event already in a stream cannot be appended to it again |
| Replay.CompletedIsFinal | rust/ovca-types/src/goal_runtime.rs:892-981 | no status event replays after a terminal status |
| Replay.CompletionPassesTheGate | rust/ovca-types/src/goal_runtime.rs:983-997 | a Completed event replays only from the required gate status, with a sufficient claim and passing decisions where they are required |
| GoalRuntime.AmbiguousAppendsLeaveAtMostOneCopy | rust/ovca-langgraph/src/goal_runtime.rs:1107-1175 | any number of completion appends, each failing before or after the durable write, leaves the log as it was or with one copy of the event, and replaying |
| GoalRuntime.ReconciliationIsExact | rust/ovca-langgraph/src/goal_runtime.rs:1184-1250 | AlreadyCommitted implies the exact event is in the log; AppendRequired (RetryRequired in the source) implies its id is absent, appending it replays to Completed, and with matching material the append is admitted |
| GoalRuntime.RetryIsAcceptedIffNothingWasWritten | rust/ovca-langgraph/src/goal_runtime.rs:1107-1175 | repeating an interrupted append is accepted exactly when the first one wrote nothing |
| GoalRuntime.PlannedRunReplays | rust/ovca-langgraph/src/goal_runtime.rs:1465-1592 | valid stamps and distinct tasks give four events whose every non-empty prefix replays, to exactly the planned run, in time order |
| GoalRuntime.EveryCompletionWasAdmitted | rust/ovca-langgraph/src/goal_runtime.rs:1257-1306 | over every sequence of operations each Completed event in the log was let in by one operation whose checks held at that time |
| GoalRuntime.EnforcedGoalsCompleteOnlyVerified | rust/ovca-langgraph/src/goal_runtime.rs:962-1053 | where a goal must be verified, that operation was the verified append, with fresh material equal to what was persisted and the owner's goal |
| GoalRuntime.ManagedRunsCompleteOnlyReviewed | rust/ovca-langgraph/src/goal_runtime.rs:827-960 | a run managed by the controllers, known from its record or its log alone, completed only with a readable record, a ResolvedPass review, that pair as the replayed decisions, and current evidence |
| GoalRuntime.Runtime.CreateRun | rust/ovca-langgraph/src/goal_runtime.rs:721-740 | the log becomes the four planned events, cut where a crash stops it, exactly when it was empty and the inputs are valid; what is left always replays |
| GoalRuntime.Runtime.AppendEvent | rust/ovca-langgraph/src/goal_runtime.rs:1257-1306 | appends exactly when every check holds, and the result replays |
| GoalRuntime.Runtime.AppendVerifiedCompletion | rust/ovca-langgraph/src/goal_runtime.rs:1107-1175 | refuses exactly when a check fails, without writing; otherwise one copy is written, or the outcome is unknown with one copy or none |
| GoalRuntime.Runtime.ReconcileVerifiedCompletionAppend | rust/ovca-langgraph/src/goal_runtime.rs:1184-1250 | reads only; its answer is true of the log |
| ManagedGoal.CompletedGoalsAreEarned | rust/ovca-langgraph/src/goal_runtime.rs:855-960 | over every joint run of both controllers, the projection and the goal runtime on one log and database, with crashes and any order: each Completed event of a managed run was let in by one append, when the database was readable, the Reviewer and the Auditor had each been called exactly once on the state the run reached and answered a supported Pass, and the stream held exactly these decisions; and the log then holds the phase path of one attempt and right after it the pair, once, if and only if no decision in it was appended by hand |
| ManagedGoal.EveryRunKeepsPair | rust/ovca-langgraph/src/review_audit_loop.rs:638-769 | in a joint run whose log holds no decision by hand, it holds no decision at all, or the pair begins right after the terminal event of a finished one-attempt run |
| ManagedGoal.HandWrittenPairIsAdmitted | rust/ovca-langgraph/src/goal_runtime.rs:920-935 | the condition can fail: a caller that appends the very pair under names of its own, and then the completion, passes every check whatever the chain is |
| ManagedGoalExample.AHandWrittenPairCompletesARetriedRun | rust/ovca-langgraph/src/goal_runtime.rs:855-960 | some joint run of the controllers, from a planned run through two attempts, a passing review and eight appends of a caller, ends in a Completed event that was admitted and earned, though the run's chain is refused and no pair was projected |
| WildcardMatch.WildcardMatch | rust/ovca-engineer-server/src/ops_health.rs:322-352 | terminates; true implies the recursive meaning of `*` and `?`; on a text without a star byte true exactly when that meaning holds |
| WildcardMatch.AcceptsIsSound | rust/ovca-engineer-server/src/ops_health.rs:322-352 | every accepted text matches, whatever bytes it has |
| WildcardMatch.AcceptsDecides | rust/ovca-engineer-server/src/ops_health.rs:334-345 | on star-free texts retrying only the last star loses no match |
| WildcardMatch.CompleteExactlyOnStarFreeTexts | rust/ovca-engineer-server/src/ops_health.rs:328-333 | the texts on which every matching pattern is accepted are exactly those without a star byte |
| AnsiStripper.StripAnsi | scripts/diagnostic_normalizer.py:151-179 | the loop computes the recursive definition of stripping, errors included |
| AnsiStripper.ConsumeCsi | scripts/diagnostic_normalizer.py:182-191 | consumes exactly parameter bytes, intermediate bytes and one final byte of section 5.4 of ECMA-48, or reports the error |
| AnsiStripper.ConsumeOsc | scripts/diagnostic_normalizer.py:194-208 | consumes exactly a control string up to BEL or the two-character terminator, or reports the error |
| AnsiStripper.StripDecidesGrammar | scripts/diagnostic_normalizer.py:151-208 | succeeds exactly on sequences of plain characters, CSI and OSC, and returns the plain characters in order, whichever way the text is decomposed |
| AnsiStripper.StripDistributes | scripts/diagnostic_normalizer.py:151-179 | two accepted texts may be stripped apart or together |
| AnsiStripper.StripIsIdempotent | scripts/diagnostic_normalizer.py:151-179 | stripping again changes nothing |
| AnsiStripper.LineEndsSplitExactly | scripts/diagnostic_normalizer.py:278-279 | the end-of-line step distributes over a cut exactly when the cut does not split a CR LF pair |
| AnsiStripper.NormalizedTextIsClean | scripts/diagnostic_normalizer.py:266-287 | after both steps no carriage return, escape or eight-bit introducer is left |
| BrainCache.EveryRunKeepsInv | rust/ovca-brain/src/cache.rs:66-106 | every interleaving of calls, invalidations and dropped callers keeps the cache invariant |
| BrainCache.SingleFlight | rust/ovca-brain/src/cache.rs:80-99 | at most one call is past the rebuild mutex of a brain; builds that outlive their caller are counted by the rows below |
| BrainCache.InsertsBalanceRemovals | rust/ovca-brain/src/cache.rs:101-112 | inserts of a brain equal the removals that took an entry, plus one if it is cached now |
| BrainCache.CountersAccountForCalls | rust/ovca-brain/src/cache.rs:70-77 | when no first lookup is unsettled, hits plus misses equal the calls not dropped before it |
| BrainCache.ReturnsPublishedIndex | rust/ovca-brain/src/cache.rs:88-105 | a call returns only an index that some call inserted for the same brain |
| BrainCache.BuildsFlySinglyIff | rust/ovca-brain/src/cache.rs:66-106 | over a run, no two builds of a brain, those of dropped callers included, are ever in progress at once if and only if no build starts while that of a dropped caller still runs |
| BrainCache.PatientCallersFlySingly | rust/ovca-brain/src/cache.rs:80-99 | so they never are when no caller is dropped during its build |
| BrainCache.BuildsAreBounded | rust/ovca-brain/src/cache.rs:94-99 | in every reachable state the builds in progress are at most one more than those of dropped callers |
| BrainCache.DropAllowsSecondBuild | rust/ovca-brain/src/cache.rs:96-100 | a reachable state with two builds of one brain in progress |
| BrainCache.Cache.GetOrLoad | rust/ovca-brain/src/cache.rs:66-106 | a call running alone returns the cached or the built index, leaves it cached, counts one hit or one miss, and is a path of the concurrent system |
| BrainCache.Cache.InvalidateBrain | rust/ovca-brain/src/cache.rs:109-113 | removes that brain's index only; counters stay |
| RuntimeTrace.TraceRevealsNoNames | rust/ovca-observability/src/lib.rs:485-620 | two valid streams equal up to an injective renaming of ids, free text and metadata give the same trace |
| RuntimeTrace.TraceKeepsTheShape | rust/ovca-observability/src/lib.rs:255-277 | equal traces come from streams of equal length, times, producers, kinds, status changes, verdicts and task positions |
| RuntimeTrace.GradeCompleteness | rust/ovca-observability/src/lib.rs:284-317 | present plus missing is expected; the missing list is exactly the pairs absent, in order; passes from 99 percent; the trace built from the same events scores present equal to expected and passes |
| RuntimeTrace.MissingIsExact | rust/ovca-observability/src/lib.rs:284-310 | a pair is reported missing exactly when that span lacks that field |
| RuntimeTrace.BuiltTraceIsComplete | rust/ovca-observability/src/lib.rs:255-317 | the serialized trace of any stream the builder accepts misses no required field of any event when graded against it |
| RuntimeTrace.SpanHasEveryField | rust/ovca-observability/src/lib.rs:605-620 | what is serialized of a span has all twenty-two required paths, absent facts as nulls, whatever the event |
| RuntimeTrace.SerializationIsInjective | rust/ovca-observability/src/lib.rs:320-330 | two traces that are serialized alike are alike |
| RuntimeTrace.ExtraSpansAreIgnored | rust/ovca-observability/src/lib.rs:284-310 | spans beyond the expected ones, and names beside the spans, change nothing |
| FailureWire.ParseInvertsFormat | scripts/revision_loop.py:166-193 | every instant reads back from its canonical spelling |
| FailureWire.AcceptedSpellingIsUnique | scripts/revision_loop.py:184-193 | a text is accepted as an instant exactly when it is that instant's canonical spelling with 0, 3 or 6 fraction digits (section 5.6 of RFC 3339) |
| FailureWire.DecodeInvertsEncode | scripts/revision_loop.py:297-358 | every valid record is encoded and decodes to itself |
| FailureWire.EncodeInvertsDecode | scripts/revision_loop.py:297-358 | re-encoding an accepted wire value gives it back without explicit nulls of the two optional fields |
| FailureWire.SpellingsAreDistinct | scripts/revision_loop.py:221-257 | each category and confirmation has one spelling, and only the listed spellings are read |

## Left out

- HTTP and MCP servers, LLM clients, the command line, configuration and the coordinator, reviewer and auditor
  server files: plumbing.
- Policy tools, the policy gate, brain search, permissions and the OracleGraph routing: short lookups, which would
  only add easy members.
- SQLite, JSONL bytes, fsync, hashing and serde: an atomic cell, a sequence of events, digests as values.
- Several runs in one log, contract versions, stable-id spelling and millisecond precision.
- The broker's admission rules beyond a live lease, the prepared write and the expected files; what a read
  returns; sealed copies; payload bytes; lease, grant and authority windows, which are one interval.
- How the verifier runs, how evidence is stored, the capability registry, and the identity checks of replay plans
  and source manifests.
- The contents of review packets and invocations beyond what the kernel compares, role checks of typed outcomes,
  and the paths and routing of repair directives.
- Scheduling tasks into waves, guards and approvals, task leases, the execution view beside the log, evidence
  attachments, and the timestamps replay collects.
- grade_replay_parity and grade_goal_runtime_invariants: a comparison of two serialized traces, and a case table.
- Failure classification and routing in scripts/revision_loop.py, and its log writers.
- The path expressions and separator steps of the diagnostic normalizer.
- The writes that close the workspace after a run has ended, and the resume of an ended run, are steps of
  `EngineerVerifierRuns` but not part of the methods of `EngineerVerifierLoop`; errors of I/O in the middle of a method
  are crashes.
- EngineerVerifierLoop.Loop.VerifyAndAdmit: takes a repeated seal to be later than the recovery before it, because in
  the same instant it would change nothing and the write would be refused.
- GoalRuntime.ManagedRunsCompleteOnlyReviewed: takes the database and the review as they are; that they are states the
  controllers reached is CompletedGoalsAreEarned.
- Freshness of the cache under an invalidation that races with a build: the code does not promise it.
