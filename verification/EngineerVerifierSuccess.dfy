/** When the operations of the controller that are made of several writes succeed, for a driver that has the lease
    in hand and a clock that does not go back. */
module EngineerVerifierSuccess {
  import opened Common
  import opened WorkspaceFiles
  import opened RuntimeTypes
  import opened EngineerVerifierKernel
  import opened EngineerVerifierCommands
  import opened EngineerVerifierRuns
  import opened EngineerVerifierOutbox
  import opened EngineerVerifierEffects
  import opened EngineerVerifierAgreement
  import opened EngineerVerifierStuck
  import opened EngineerVerifierOrder

  type Roots = map<Id, seq<File>>

  // ---------------------------------------------------------------- one or two writes

  /** When a driver that holds the present state gets the write through: it is attempted, the driver is
      entitled to it, it changes something, and the store does not refuse it. */
  predicate Succeeds(driver: Driver, s: EvState, cmd: Command) {
    Enabled(s, cmd) && Permitted(driver, s, cmd) && Next(s, cmd) != s && !Refused(s, cmd)
  }

  predicate CanMove(driver: Driver, s: EvState, log: seq<RunEvent>, to: Phase, trigger: Trigger, now: Time) {
    CursorOf(log) == s.projected && Succeeds(driver, s, Transition(to, trigger, now))
  }

  /** The workspace can be closed, and from the closed state the transition made. */
  predicate CanClose(driver: Driver, revision: int, s: EvState, log: seq<RunEvent>, to: Phase, trigger: Trigger, now: Time) {
    && s.workspace.Some? && Succeeds(driver, s, CloseWorkspace)
    && var closed := ClosedState(s);
       CanMove(AfterWrite(driver, revision + 1, closed, CloseWorkspace), closed, log, to, trigger, now)
  }

  // ---------------------------------------------------------------- the lease in hand

  /** What every run keeps of a stored state. */
  predicate Sure(s: EvState, roots: Roots) { ValidState(s) && Orderly(s) && StateExplained(roots, s) }

  lemma EveryStateIsSure(base: seq<RunEvent>, actions: seq<Action>)
    requires Run(Start(base), actions).state.Some?
    ensures var w := Run(Start(base), actions); Sure(w.state.value, w.roots)
  {
    EveryRunKeepsEffects(base, actions);
    EveryRunIsOrderly(base, actions);
    hide Run, ValidState, StateExplained, Orderly;
  }

  lemma SureIsValid(s: EvState, roots: Roots)
    requires Sure(s, roots)
    ensures ValidState(s) && Orderly(s) && StateExplained(roots, s)
  {
  }

  predicate InHand(driver: Driver, s: EvState) {
    && driver.owns && s.pending.None?
    && s.workspace.Some? && !s.workspace.value.closed && !s.workspace.value.cleanupRequired
  }

  predicate AtEnd(s: EvState, log: seq<RunEvent>) { CursorOf(log) == s.projected }

  predicate RootIsThere(s: EvState, roots: Roots) { s.workspace.Some? && s.workspace.value.token in roots }

  /** With nothing prepared, a root that is there holds the files last recorded. */
  lemma RootIsCurrent(s: EvState, roots: Roots)
    requires Sure(s, roots) && RootIsThere(s, roots) && !s.workspace.value.closed && s.prepared.None?
    ensures roots[s.workspace.value.token] == s.workspace.value.current.files
  {
    hide ValidState, Orderly;
  }

  // ---------------------------------------------------------------- ending an attempt

  /** How an attempt that did not complete ends. */
  predicate EndsBy(s: EvState, to: Phase, trigger: Trigger) {
    match s.executor
    case NotStarted => s.cancellation.Some? && to.Cancelled? && trigger.CancellationAccepted?
    case Started(_, _) => to.Failed? && trigger.ExecutorOutcomeUnknown?
    case OutcomeRecorded(_, _, outcome, _) =>
      match outcome
      case ExecutorRetry(_, _) => to.RetryPending? && trigger.RetryRequired?
      case ExecutorFailed(_) => to.Failed? && trigger.FailureRecorded?
      case ExecutorTimedOut(_) => to.Failed? && trigger.FailureRecorded?
      case ExecutorCancelled(_) => to.Cancelled? && trigger.CancellationAccepted?
      case Completed(_) => false
  }

  lemma AttemptCloses(driver: Driver, revision: int, s: EvState, log: seq<RunEvent>, to: Phase, trigger: Trigger, now: Time)
    requires InHand(driver, s) && s.phase.Engineering? && Orderly(s) && EndsBy(s, to, trigger) && s.time <= now
    ensures CanClose(driver, revision, s, log, to, trigger, now) <==> AtEnd(s, log)
  {
  }

  lemma UnverifiedCloses(driver: Driver, revision: int, s: EvState, log: seq<RunEvent>, now: Time)
    requires InHand(driver, s) && s.phase.Verifying? && s.verifier == Some(VerifierNotStarted) && s.cancellation.Some?
    requires s.time <= now
    ensures CanClose(driver, revision, s, log, Cancelled, CancellationAccepted, now) <==> AtEnd(s, log)
  {
  }

  // ---------------------------------------------------------------- the verifier

  predicate Checking(s: EvState) { s.phase.Verifying? && s.verifier.Some? && s.verifier.value.VerifierStarted? }

  predicate Observed(s: EvState) { s.phase.Verifying? && s.verifier.Some? && s.verifier.value.PublicationObserved? }

  lemma VerdictMoves(driver: Driver, s: EvState, log: seq<RunEvent>, now: Time)
    requires InHand(driver, s) && Checking(s) && s.time <= now
    ensures CanMove(driver, s, log, Failed, FailureRecorded, now) <==> AtEnd(s, log) && s.cancellation.None?
  {
  }

  lemma VerdictIsObserved(driver: Driver, s: EvState, transcript: Id, bundle: Id, now: Time)
    requires InHand(driver, s) && Checking(s) && s.time <= now
    ensures var cmd := Observe(transcript, bundle, now);
            && (Succeeds(driver, s, cmd) <==> s.cancellation.None?)
            && (Enabled(s, cmd) ==>
                  var n := Next(s, cmd);
                  Observed(n) && n.cancellation.None? && n.projected == s.projected && n.workspace == s.workspace)
  {
  }

  lemma ObservedIsAdmitted(driver: Driver, s: EvState, log: seq<RunEvent>, now: Time)
    requires InHand(driver, s) && Observed(s) && s.time <= now
    ensures CanMove(driver, s, log, Cancelled, CancellationAccepted, now) <==> AtEnd(s, log) && s.cancellation.Some?
    ensures Succeeds(driver, s, Admit(now)) <==> s.cancellation.None?
  {
  }

  lemma VerifierBegins(driver: Driver, s: EvState, now: Time)
    requires InHand(driver, s) && s.phase.Verifying? && s.verifier == Some(VerifierNotStarted) && s.time <= now
    ensures var cmd := StartVerifier(now);
            && (Succeeds(driver, s, cmd) <==> s.cancellation.None?)
            && (Enabled(s, cmd) ==>
                  var n := Next(s, cmd);
                  Checking(n) && n.cancellation.None? && n.projected == s.projected && n.workspace == s.workspace)
  {
  }

  /** A resumed verification goes through: what was observed is admitted or cancelled, and otherwise the sealed
      copy is made again from the root. */
  predicate Verifiable(s: EvState, atEnd: bool, roots: Roots) {
    && atEnd && s.verifier.Some?
    && match s.verifier.value
       case PublicationObserved(_, _, _) => true
       case VerifierNotStarted => s.cancellation.Some? || RootIsThere(s, roots)
       case VerifierStarted(_) => s.cancellation.None? && RootIsThere(s, roots)
       case Admitted(_, _, _, _) => false
  }

  // ---------------------------------------------------------------- the seal

  predicate Worked(s: EvState) {
    s.phase.Engineering? && HasCompleted(s) && s.result.Some? && |s.ledger| == |s.plan.effects|
  }

  /** A seal made before is made again, with the same inputs. */
  predicate SealKept(s: EvState, inputs: Id, chosen: Id) {
    s.replay.Some? ==>
      s.workspace.Some? && s.result.Some? && s.bridge == Some(BridgeOf(s, inputs)) && s.replay == Some(chosen)
  }

  predicate SealReady(s: EvState, roots: Roots, inputs: Id, chosen: Id) {
    RootIsThere(s, roots) && s.cancellation.None? && !LastDenied(s) && SealKept(s, inputs, chosen)
  }

  /** A seal repeated in the same instant would change nothing. */
  function SealedSince(s: EvState): Time { if s.replay.Some? then s.time + 1 else s.time }

  lemma SealIsRecorded(driver: Driver, s: EvState, inputs: Id, chosen: Id, now: Time)
    requires InHand(driver, s) && Worked(s) && ValidState(s) && Orderly(s) && SealedSince(s) <= now
    ensures var cmd := RecordReplay(inputs, chosen, now);
            && (Succeeds(driver, s, cmd) <==> s.cancellation.None? && SealKept(s, inputs, chosen))
            && (Enabled(s, cmd) ==>
                  var n := Next(s, cmd);
                  && Worked(n) && n.cancellation.None? && n.projected == s.projected && n.workspace == s.workspace
                  && n.ledger == s.ledger && n.bridge.Some? && n.verifier == Some(VerifierNotStarted))
  {
    assert s.bridge.Some? <==> s.replay.Some?;
    hide ValidState, BridgeOf;
  }

  /** The effects of a completed attempt are complete exactly when the last was not denied. */
  lemma CompleteAfterAll(s: EvState)
    requires ValidState(s) && Orderly(s) && HasCompleted(s) && s.result.Some? && |s.ledger| == |s.plan.effects|
    ensures CompletedResult(s)
    ensures EffectsComplete(s) <==> !LastDenied(s)
  {
    assert ValidLedger(s.plan, s.attempt, s.ledger);
    assert ValidExecutor(s.executor, s.binding, s.plan);
  }

  lemma NothingLeftToPrepare(s: EvState)
    requires ValidState(s) && |s.ledger| == |s.plan.effects|
    ensures s.prepared.None?
  {
  }

  lemma SealedIsVerified(driver: Driver, s: EvState, log: seq<RunEvent>, now: Time)
    requires InHand(driver, s) && Worked(s) && ValidState(s) && Orderly(s) && s.time <= now
    requires s.cancellation.None? && s.bridge.Some? && s.verifier == Some(VerifierNotStarted)
    ensures CanMove(driver, s, log, Verifying, EngineerCompleted, now) <==> AtEnd(s, log) && !LastDenied(s)
    ensures var n := Cleared(Moved(s, Verifying, EngineerCompleted, now));
            && n.phase.Verifying? && n.verifier == s.verifier && n.cancellation.None? && n.workspace == s.workspace
            && n.time == now && n.pending.None?
  {
    hide ValidState, EffectsComplete, CompletedResult, LastDenied;
    CompleteAfterAll(s);
    NothingLeftToPrepare(s);
  }

  // ---------------------------------------------------------------- the effects

  /** The executor completed and its result is recorded: the state the effect loop works on. */
  predicate Effective(s: EvState) { s.phase.Engineering? && HasCompleted(s) && s.result.Some? }

  function Found(s: EvState, roots: Roots): Option<Inspection> {
    if s.prepared.Some? && s.workspace.Some? then Some(InspectRoot(roots, s.workspace.value, s.prepared.value)) else None
  }

  /** One of the effects still to be resolved is the first the broker denies. */
  predicate Denies(s: EvState, denial: Option<int>) {
    denial.Some? && |s.ledger| <= denial.value < |s.plan.effects|
  }

  /** The effect loop gets through, given whether the log ends where the state says, the roots, and the first
      effect that is denied. */
  predicate EffectsSucceed(s: EvState, atEnd: bool, roots: Roots, denial: Option<int>) {
    || |s.ledger| == |s.plan.effects|
    || (if s.prepared.None? && s.cancellation.Some? then atEnd
        else
          match Found(s, roots)
          case Some(IntendedAfter) => !LastDenied(s) && (s.cancellation.Some? ==> atEnd)
          case Some(Missing) => atEnd
          case Some(ThirdState) => atEnd
          case _ =>
            && s.cancellation.None? && !LastDenied(s) && (Denies(s, denial) ==> atEnd)
            && (denial == Some(|s.ledger|) || RootIsThere(s, roots)))
  }

  /** And then ends the run itself: cancelled, or failed. */
  predicate EffectsLeave(s: EvState, roots: Roots, denial: Option<int>) {
    && |s.ledger| < |s.plan.effects|
    && (|| s.cancellation.Some?
        || match Found(s, roots)
           case Some(IntendedAfter) => false
           case Some(Missing) => true
           case Some(ThirdState) => true
           case _ => Denies(s, denial))
  }

  lemma CancelledBeforeNext(driver: Driver, s: EvState, log: seq<RunEvent>, now: Time)
    requires InHand(driver, s) && Effective(s) && s.prepared.None? && s.cancellation.Some? && s.time <= now
    requires |s.ledger| < |s.plan.effects|
    ensures CanMove(driver, s, log, Cancelled, CancellationAccepted, now) <==> AtEnd(s, log)
  {
  }

  lemma WriteIsPrepared(base: seq<RunEvent>, actions: seq<Action>, driver: Driver, s: EvState, now: Time)
    requires Run(Start(base), actions).state == Some(s)
    requires InHand(driver, s) && Effective(s) && NextIsWrite(s) && s.prepared.None? && s.cancellation.None? && s.time <= now
    ensures var cmd := PrepareWrite(now);
            && Succeeds(driver, s, cmd) && Enabled(s, cmd)
            && Readied(s, Next(s, cmd))
  {
    hide Run, Next, ValidSuccessor, Refused;
    var cmd := PrepareWrite(now);
    PreparedWritesAreNeverRefused(base, actions, now);
    EveryRunAgrees(base, actions, cmd);
    PreparingChanges(s, now);
  }

  /** Ready for the broker's call: as before, but that a planned write is prepared. */
  predicate Readied(s: EvState, n: EvState) {
    && Effective(n) && n.pending.None? && n.cancellation.None? && n.plan == s.plan && n.ledger == s.ledger
    && n.workspace == s.workspace && n.replay == s.replay && n.projected == s.projected
    && (NextIsWrite(n) <==> n.prepared.Some?)
  }

  lemma PreparingChanges(s: EvState, now: Time)
    requires Enabled(s, PrepareWrite(now)) && Effective(s)
    ensures var n := Next(s, PrepareWrite(now)); n != s && Readied(s, n)
  {
    hide WrittenFiles;
  }

  /** A prepared write is the last effect of the plan, and one of a completed attempt. */
  lemma PreparedIsLast(s: EvState)
    requires ValidState(s) && Orderly(s) && s.phase.Engineering? && s.prepared.Some?
    ensures HasCompleted(s) && NextIsWrite(s) && |s.ledger| + 1 == |s.plan.effects| && s.workspace.Some?
    ensures s.prepared.value.before == s.workspace.value.current
  {
    PreparedIsTheNextWrite(s);
    assert ValidPlan(s.plan);
    hide ValidState;
  }

  /** One more effect is resolved, and not denied. */
  predicate Resolves(s: EvState, n: EvState) {
    && Effective(n) && n.pending.None? && n.cancellation == s.cancellation && n.plan == s.plan
    && |n.ledger| == |s.ledger| + 1 && s.ledger <= n.ledger && n.prepared.None? && !LastDenied(n)
    && n.replay == s.replay && n.projected == s.projected
    && SameLease(s, n)
  }

  predicate SameLease(s: EvState, n: EvState) {
    && s.workspace.Some? && n.workspace.Some? && n.workspace.value.token == s.workspace.value.token
    && n.workspace.value.closed == s.workspace.value.closed
    && n.workspace.value.cleanupRequired == s.workspace.value.cleanupRequired
  }

  lemma MadeIsReconciled(driver: Driver, s: EvState, now: Time)
    requires InHand(driver, s) && Effective(s) && NextIsWrite(s) && s.prepared.Some? && s.time <= now
    requires driver.note == Inspected(IntendedAfter)
    ensures var cmd := RecordReconciled(now);
            && (Succeeds(driver, s, cmd) <==> !LastDenied(s))
            && (Enabled(s, cmd) ==> Resolves(s, Next(s, cmd)) && Next(s, cmd).time == now)
  {
  }

  lemma ReconciledIsCancelled(driver: Driver, s: EvState, log: seq<RunEvent>, now: Time)
    requires InHand(driver, s) && Effective(s) && s.prepared.None? && s.cancellation.Some? && s.time <= now
    requires driver.note.SawReconciled?
    ensures CanMove(driver, s, log, Cancelled, CancellationAccepted, now) <==> AtEnd(s, log)
  {
  }

  lemma DropIsRefused(driver: Driver, s: EvState, now: Time)
    ensures !Succeeds(driver, s, DropPrepared(now))
  {
  }

  lemma LostIsMarked(driver: Driver, s: EvState, now: Time)
    requires InHand(driver, s) && Effective(s) && NextIsWrite(s) && s.prepared.Some? && s.time <= now
    requires driver.note == Inspected(Missing) || driver.note == Inspected(ThirdState)
    ensures var cmd := MarkCleanup(now);
            && Succeeds(driver, s, cmd)
            && (Enabled(s, cmd) ==>
                  var n := Next(s, cmd);
                  && n.phase.Engineering? && n.workspace.Some? && n.workspace.value.cleanupRequired && n.pending.None?
                  && n.projected == s.projected && n.time == now)
  {
  }

  lemma MarkedFails(driver: Driver, s: EvState, log: seq<RunEvent>, now: Time)
    requires driver.owns && s.phase.Engineering? && s.workspace.Some? && s.workspace.value.cleanupRequired && s.pending.None?
    requires s.time <= now
    ensures CanMove(driver, s, log, Failed, FailureRecorded, now) <==> AtEnd(s, log)
  {
  }

  lemma ReceiptIsRecorded(driver: Driver, s: EvState, denied: bool, now: Time)
    requires InHand(driver, s) && Effective(s) && NextEffect(s) && (NextIsWrite(s) <==> s.prepared.Some?) && s.time <= now
    requires s.cancellation.None? && driver.note == Executed(denied)
    ensures var cmd := RecordReceipt(denied, now);
            && (Succeeds(driver, s, cmd) <==> !LastDenied(s))
            && (Enabled(s, cmd) ==>
                  var n := Next(s, cmd);
                  n.time == now && if denied then DenialRecorded(s, n) else Resolves(s, n))
  {
  }

  predicate DenialRecorded(s: EvState, n: EvState) {
    && n.phase.Engineering? && LastDenied(n) && n.pending.None? && n.projected == s.projected && SameLease(s, n)
  }

  lemma DeniedFails(driver: Driver, s: EvState, log: seq<RunEvent>, now: Time)
    requires driver.owns && s.phase.Engineering? && LastDenied(s) && s.pending.None? && s.time <= now
    requires driver.note.SawDenial?
    ensures CanMove(driver, s, log, Failed, FailureRecorded, now) <==> AtEnd(s, log)
  {
  }

  /** An effect resolved without a denial leaves the rest of the loop to do. */
  lemma RestSucceeds(s: EvState, n: EvState, atEnd: bool, roots: Roots, after: Roots, denial: Option<int>)
    requires |s.ledger| < |s.plan.effects| && s.cancellation.None? && Resolves(s, n)
    requires !LastDenied(s) && RootIsThere(s, roots) && RootIsThere(n, after)
    requires match Found(s, roots)
             case Some(IntendedAfter) => |n.ledger| == |n.plan.effects|
             case Some(ExpectedBefore) => denial != Some(|s.ledger|)
             case Some(_) => false
             case None => denial != Some(|s.ledger|)
    ensures EffectsSucceed(s, atEnd, roots, denial) <==> EffectsSucceed(n, atEnd, after, denial)
    ensures EffectsLeave(s, roots, denial) <==> EffectsLeave(n, after, denial)
  {
    hide InspectRoot;
  }

  /** A round in which the broker is called, and what it means for the loop. */
  lemma RoundDecides(s: EvState, atEnd: bool, roots: Roots, denial: Option<int>)
    requires |s.ledger| < |s.plan.effects| && s.cancellation.None?
    requires Found(s, roots).None? || Found(s, roots).value.ExpectedBefore?
    ensures LastDenied(s) || (denial != Some(|s.ledger|) && !RootIsThere(s, roots)) ==> !EffectsSucceed(s, atEnd, roots, denial)
    ensures !LastDenied(s) && denial == Some(|s.ledger|) ==>
              (EffectsSucceed(s, atEnd, roots, denial) <==> atEnd) && EffectsLeave(s, roots, denial)
  {
    hide InspectRoot;
  }

  // ---------------------------------------------------------------- the whole call

  /** What a call meets: what the executor answers, the first effect that is denied, whether the checks of the
      replay inputs and of the evidence bank pass, the verifier's verdict, and what is recorded with it. */
  datatype Given = Given(
    outcome: Outcome, denial: Option<int>, checks: bool, passed: bool, inputs: Id, chosen: Id, transcript: Id, bundle: Id)

  /** What follows a recorded outcome gets through: the end of an attempt that did not complete, or the effects and
      then the seal, whose inputs must pass the checks of the code. */
  predicate OutcomeSucceeds(s: EvState, outcome: Outcome, atEnd: bool, roots: Roots, g: Given) {
    match outcome
    case Completed(_) =>
      && EffectsSucceed(s, atEnd, roots, g.denial)
      && (|| EffectsLeave(s, roots, g.denial)
          || (g.checks && atEnd && (|s.ledger| == |s.plan.effects| ==> SealReady(s, roots, g.inputs, g.chosen))))
    case _ => atEnd
  }

  /** A driver with the lease in hand gets through. */
  predicate LeasedSucceeds(s: EvState, atEnd: bool, roots: Roots, g: Given) {
    match s.executor
    case Started(_, _) => atEnd
    case NotStarted =>
      if s.cancellation.Some? then atEnd
      else
        && ValidOutcome(g.outcome, s.attempt, s.plan)
        && OutcomeSucceeds(s, g.outcome, atEnd, roots, g)
    case OutcomeRecorded(_, _, recorded, _) =>
      if s.phase.Verifying? then g.checks && Verifiable(s, atEnd, roots)
      else OutcomeSucceeds(s, recorded, atEnd, roots, g)
  }

  /** All that success depends on. */
  predicate SameWork(s: EvState, n: EvState) {
    && n.plan == s.plan && n.phase == s.phase && n.attempt == s.attempt && n.ledger == s.ledger
    && n.prepared == s.prepared && n.cancellation == s.cancellation && n.pending == s.pending
    && n.projected == s.projected && n.bridge == s.bridge && n.replay == s.replay && n.verifier == s.verifier
    && (s.replay.Some? ==> n.result == s.result)
    && SameLease(s, n) && n.workspace.value.initial == s.workspace.value.initial
    && n.workspace.value.current == s.workspace.value.current
  }

  lemma SameWorkSameOutcome(s: EvState, n: EvState, outcome: Outcome, atEnd: bool, roots: Roots, g: Given)
    requires SameWork(s, n)
    ensures OutcomeSucceeds(s, outcome, atEnd, roots, g)
        <==> OutcomeSucceeds(n, outcome, atEnd, roots, g)
  {
    assert InspectedAlike(s, n, roots);
    hide InspectRoot, BuildBridge;
  }

  predicate InspectedAlike(s: EvState, n: EvState, roots: Roots) {
    Found(s, roots) == Found(n, roots) && (RootIsThere(s, roots) <==> RootIsThere(n, roots))
  }

  lemma SameWorkSameSuccess(s: EvState, n: EvState, atEnd: bool, roots: Roots, g: Given)
    requires SameWork(s, n) && n.executor == s.executor
    ensures LeasedSucceeds(s, atEnd, roots, g)
        <==> LeasedSucceeds(n, atEnd, roots, g)
  {
    SameWorkSameOutcome(s, n, g.outcome, atEnd, roots, g);
    if s.executor.OutcomeRecorded? {
      SameWorkSameOutcome(s, n, s.executor.outcome, atEnd, roots, g);
    }
    hide OutcomeSucceeds, InspectRoot, ValidOutcome;
  }

  /** The writes before the effects leave the work as it is. */
  lemma CallKeepsWork(s: EvState, startedAt: Time, outcome: Outcome, recordedAt: Time)
    requires Enabled(s, StartExecutor(startedAt)) && s.workspace.Some?
    requires Enabled(Next(s, StartExecutor(startedAt)), RecordOutcome(outcome, recordedAt))
    ensures SameWork(s, Next(Next(s, StartExecutor(startedAt)), RecordOutcome(outcome, recordedAt)))
  {
  }

  lemma ResultKeepsWork(s: EvState, now: Time)
    requires Enabled(s, RecordResult(now)) && ValidState(s) && Orderly(s)
    ensures SameWork(s, Next(s, RecordResult(now))) && Effective(Next(s, RecordResult(now)))
  {
    assert ValidAttempt(s);
    hide ValidState;
  }

  lemma RecoveryKeepsWork(s: EvState, instance: Id, now: Time)
    requires Enabled(s, ClaimRecovery(instance, now))
    ensures var n := Next(s, ClaimRecovery(instance, now)); SameWork(s, n) && n.executor == s.executor
  {
  }

  lemma RecoveryIsEnough(driver: Driver, s: EvState, roots: Roots, instance: Id, now: Time)
    ensures var cmd := ClaimRecovery(instance, now);
            && (Succeeds(driver, s, cmd) <==> Enabled(s, cmd))
            && (Enabled(s, cmd) ==>
                  var n := Next(s, cmd);
                  && SameFence(n, n) && (RootFits(roots, n) <==> RootFits(roots, s))
                  && n.pending.None? && n.workspace.Some? && !n.workspace.value.closed && !n.workspace.value.cleanupRequired)
  {
  }

  // ---------------------------------------------------------------- a resume, a new run, a new attempt

  /** The state once its pending event is delivered. */
  function Settled(s: EvState): EvState { if s.pending.Some? then Cleared(s) else s }

  /** A resume gets through once the event is delivered: the replay inputs must pass the checks if the workspace was
      sealed, the lease must be open to the new instance at that time, and the root must be there as it was
      recorded. */
  predicate Resumes(s: EvState, roots: Roots, instance: Id, now: Time, g: Given) {
    && (s.replay.Some? ==> g.checks)
    && Enabled(s, ClaimRecovery(instance, now)) && RootFits(roots, s)
    && LeasedSucceeds(s, true, roots, g)
  }

  predicate DeniesAny(plan: Plan, denial: Option<int>) { denial.Some? && 0 <= denial.value < |plan.effects| }

  /** A fresh attempt gets through. */
  predicate AttemptSucceeds(plan: Plan, attempt: int, g: Given) {
    ValidOutcome(g.outcome, attempt, plan) && (g.outcome.Completed? ==> g.checks || DeniesAny(plan, g.denial))
  }

  predicate Fresh(s: EvState) {
    && s.executor.NotStarted? && s.cancellation.None? && s.ledger == [] && s.prepared.None? && s.replay.None?
    && s.phase.Engineering?
  }

  lemma FreshSucceeds(s: EvState, roots: Roots, g: Given)
    requires Fresh(s) && RootIsThere(s, roots)
    ensures LeasedSucceeds(s, true, roots, g) <==> AttemptSucceeds(s.plan, s.attempt, g)
  {
    hide ValidOutcome;
  }

  lemma ClaimIsFresh(plan: Plan, root: Lease, cursor: Option<Cursor>, now: Time)
    ensures var n := Cleared(Claimed(plan, root, cursor, now));
            && Fresh(n) && n.plan == plan && n.attempt == 1 && n.pending.None? && n.workspace.Some?
            && n.workspace.value.token == root.token && !n.workspace.value.closed && !n.workspace.value.cleanupRequired
  {
  }

  lemma RetryIsFresh(s: EvState, root: Lease, now: Time)
    requires Enabled(s, ClaimRetry(root, now))
    ensures var n := Cleared(Next(s, ClaimRetry(root, now)));
            && Fresh(n) && n.plan == s.plan && n.attempt == s.attempt + 1 && n.pending.None? && n.workspace.Some?
            && n.workspace.value.token == root.token && !n.workspace.value.closed && !n.workspace.value.cleanupRequired
  {
  }

  /** The store takes the claim of the next attempt. */
  predicate Retries(s: EvState, root: Lease, now: Time) {
    Enabled(s, ClaimRetry(root, now)) && !Refused(s, ClaimRetry(root, now))
  }

  lemma RetrySucceedsIff(driver: Driver, s: EvState, root: Lease, now: Time)
    requires driver.note == Opened(root)
    ensures Succeeds(driver, s, ClaimRetry(root, now)) <==> Retries(s, root, now)
  {
  }

  lemma WaitingIsCancelled(driver: Driver, s: EvState, log: seq<RunEvent>, now: Time)
    requires s.phase.RetryPending? && s.cancellation.Some? && s.pending.None? && s.time <= now
    ensures CanMove(driver, s, log, Cancelled, CancellationAccepted, now) <==> AtEnd(s, log)
  {
  }

  /** Delivering the pending event leaves the log at the end the state says. */
  lemma DeliveredIsAtEnd(s: EvState, before: seq<RunEvent>, log: seq<RunEvent>)
    requires s.pending.Some? && ReconciledLog(s, before) == Some(log)
    ensures AtEnd(Cleared(s), log)
  {
    hide FrozenMatches, ReadableLog;
  }
}
