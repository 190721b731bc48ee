/** The durable Engineer-to-Verifier state and the rules the execution store enforces on it: which
    states are valid, which may be installed first, and which may follow which. */
module EngineerVerifierKernel {
  import opened Common
  import opened WorkspaceFiles
  import opened RuntimeTypes

  // ---------------------------------------------------------------- the state

  datatype Outcome =
    | Completed(result: RoleResult)
    | ExecutorFailed(result: RoleResult)
    | ExecutorTimedOut(result: RoleResult)
    | ExecutorCancelled(result: RoleResult)
    | ExecutorRetry(completedAttempt: int, nextAttempt: int)

  datatype Executor =
    | NotStarted
    | Started(attempt: int, startedAt: Time)
    | OutcomeRecorded(attempt: int, startedAt: Time, outcome: Outcome, recordedAt: Time)

  /** The durable lease of one attempt's workspace; [validFrom, validUntil) is the window in which the
      lease, the grant and both authorities are all in force. */
  datatype Workspace = Workspace(
    token: Id, lease: Id, attempt: int,
    validFrom: Time, validUntil: Time,
    initial: Snapshot, current: Snapshot,
    instance: Id, fence: int, epoch: int, heartbeatAt: Time,
    nextReceipt: int,
    cleanupRequired: bool, closed: bool)

  datatype Prepared = Prepared(
    ordinal: int, effect: Id, attempt: int,
    before: Snapshot, after: Snapshot, file: File,
    reserved: int, preparedAt: Time)

  datatype DiffBridge = DiffBridge(
    attempt: int, before: Snapshot, after: Snapshot, diff: Bridge, result: RoleResult, inputs: Id)

  datatype Verifier =
    | VerifierNotStarted
    | VerifierStarted(startedAt: Time)
    | PublicationObserved(transcript: Id, bundle: Id, observedAt: Time)
    | Admitted(transcript: Id, bundle: Id, observedAt: Time, admittedAt: Time)

  datatype Cancellation = Cancellation(request: Id, requestedAt: Time)

  datatype EvState = EvState(
    plan: Plan,
    phase: Phase, phaseRevision: int, attempt: int, binding: Binding,
    executor: Executor,
    workspace: Option<Workspace>,
    ledger: seq<Entry>,
    prepared: Option<Prepared>,
    observations: seq<Receipt>,
    reconciliation: Option<Reconciliation>,
    result: Option<RoleResult>,
    bridge: Option<DiffBridge>,
    cancellation: Option<Cancellation>,
    pending: Option<RunEvent>,
    projected: Option<Cursor>,
    replay: Option<Id>,
    verifier: Option<Verifier>,
    time: Time,
    digest: StateDigest)

  function Transcript(verifier: Option<Verifier>): Option<Id> {
    match verifier
    case Some(PublicationObserved(transcript, _, _)) => Some(transcript)
    case Some(Admitted(transcript, _, _, _)) => Some(transcript)
    case _ => None
  }

  function ComputedDigest(s: EvState): StateDigest {
    StateDigest(s.phase, s.phaseRevision, s.attempt, s.plan, s.binding, s.ledger, s.result,
      Transcript(s.verifier))
  }

  // ---------------------------------------------------------------- valid parts

  /** Reads come before writes, so a plan holds at most one write, and it is its last effect. */
  predicate ValidPlan(plan: Plan) {
    && plan.maxAttempts >= 1
    && (forall i, j :: 0 <= i < j < |plan.effects| ==> plan.effects[i].id != plan.effects[j].id)
    && (forall i :: 0 <= i < |plan.effects| - 1 ==> plan.effects[i].ReadFile?)
  }

  predicate Wrote(e: Entry) { e.resolution.WriteApplied? || e.resolution.WriteReconciledApplied? }

  predicate ValidEntry(e: Entry) {
    && (if e.resolution.WriteReconciledApplied? then e.receipt.None? && e.reconciliation.Some?
        else e.receipt.Some? && e.reconciliation.None?)
    && (Wrote(e) <==> e.before != e.after)
  }

  /** One entry per effect in plan order, none after a denial. */
  predicate ValidLedger(plan: Plan, attempt: int, ledger: seq<Entry>) {
    && 1 <= attempt <= plan.maxAttempts
    && |ledger| <= |plan.effects|
    && (forall i :: 0 <= i < |ledger| ==>
          && ValidEntry(ledger[i])
          && ledger[i].ordinal == i
          && ledger[i].effect == plan.effects[i].id
          && ledger[i].attempt == attempt)
    && (forall i :: 0 <= i < |ledger| - 1 ==> !ledger[i].resolution.Denied?)
  }

  predicate EffectsComplete(s: EvState) {
    |s.ledger| == |s.plan.effects| && forall i :: 0 <= i < |s.ledger| ==> !s.ledger[i].resolution.Denied?
  }

  predicate ValidOutcome(outcome: Outcome, attempt: int, plan: Plan) {
    match outcome
    case Completed(result) => result.attempt == attempt && result.completed
    case ExecutorFailed(result) => result.attempt == attempt && !result.completed
    case ExecutorTimedOut(result) => result.attempt == attempt && !result.completed
    case ExecutorCancelled(result) => result.attempt == attempt && !result.completed
    case ExecutorRetry(completed, next) =>
      completed == attempt && next == attempt + 1 && next <= plan.maxAttempts
  }

  predicate ValidExecutor(executor: Executor, binding: Binding, plan: Plan) {
    match executor
    case NotStarted => true
    case Started(attempt, _) => attempt == binding.attempt
    case OutcomeRecorded(attempt, startedAt, outcome, recordedAt) =>
      attempt == binding.attempt && startedAt <= recordedAt && ValidOutcome(outcome, attempt, plan)
  }

  predicate ValidSnapshot(snapshot: Snapshot) { Sorted(snapshot.files) && snapshot.generation >= 0 }

  predicate AuthorizesTime(w: Workspace, at: Time) { w.validFrom <= at < w.validUntil }

  predicate ValidWorkspace(w: Workspace) {
    && ValidSnapshot(w.initial) && ValidSnapshot(w.current)
    && w.initial.lease == w.lease == w.current.lease
    && w.initial.generation == 0
    && w.fence > 0 && w.epoch > 0 && w.nextReceipt > 0
    && !(w.closed && w.cleanupRequired)
  }

  predicate ValidPrepared(p: Prepared) {
    && ValidSnapshot(p.before) && ValidSnapshot(p.after)
    && p.after.generation == p.before.generation + 1
    && p.after.lease == p.before.lease
    && Lookup(p.before.files, p.file.path) != Some(p.file)
    && p.after.files == ExactAfterFiles(p.before.files, p.file)
    && p.reserved > 0
  }

  predicate PreparedFits(s: EvState, p: Prepared) {
    && s.workspace.Some?
    && p.ordinal == |s.ledger| < |s.plan.effects|
    && s.plan.effects[p.ordinal] == WriteFile(p.effect, p.file.path, p.file.content)
    && p.attempt == s.attempt
    && p.before == s.workspace.value.current
    && p.reserved == s.workspace.value.nextReceipt
  }

  /** The receipts of the ledger's entries, in order. */
  function Receipts(ledger: seq<Entry>): seq<Receipt> {
    if ledger == [] then []
    else
      Receipts(ledger[..|ledger| - 1])
      + if ledger[|ledger| - 1].receipt.Some? then [ledger[|ledger| - 1].receipt.value] else []
  }

  predicate ValidDiffBridge(b: DiffBridge) {
    && b.attempt != 0
    && ValidBridge(b.diff)
    && (b.diff.changed == [] ==> b.before == b.after)
  }

  /** The bookkeeping of one attempt: ledger, prepared write, receipts, result, bridge. */
  predicate ValidAttempt(s: EvState) {
    && s.attempt == s.binding.attempt
    && ValidLedger(s.plan, s.attempt, s.ledger)
    && ValidExecutor(s.executor, s.binding, s.plan)
    && (s.workspace.Some? ==>
          && ValidWorkspace(s.workspace.value)
          && s.workspace.value.attempt == s.attempt
          && AuthorizesTime(s.workspace.value, s.workspace.value.heartbeatAt))
    && (s.prepared.Some? ==> ValidPrepared(s.prepared.value) && PreparedFits(s, s.prepared.value))
    && s.observations == Receipts(s.ledger)
    && (s.reconciliation.Some? ==>
          exists i :: 0 <= i < |s.ledger| && s.ledger[i].reconciliation == s.reconciliation)
    && (s.result.Some? ==> s.result.value.attempt == s.attempt)
    && (s.bridge.Some? ==>
          && ValidDiffBridge(s.bridge.value)
          && s.bridge.value.attempt == s.attempt
          && s.result == Some(s.bridge.value.result))
    && (s.replay.Some? <==> s.verifier.Some?)
  }

  predicate RetryableOutcome(executor: Executor) {
    executor.OutcomeRecorded? && !executor.outcome.Completed?
  }

  predicate CompletedResult(s: EvState) { s.result.Some? && s.result.value.completed }

  predicate ValidPhaseShape(s: EvState) {
    match s.phase
    case Planned =>
      s.phaseRevision == 0 && s.executor.NotStarted? && s.ledger == [] && s.result.None? && s.workspace.None?
    case Engineering =>
      && s.workspace.Some?
      && (s.workspace.value.closed ==>
            && s.ledger == [] && s.prepared.None?
            && (s.cancellation.Some? || s.executor.Started? || RetryableOutcome(s.executor)))
    case RetryPending =>
      s.workspace.Some? && s.workspace.value.closed && s.ledger == [] && s.prepared.None?
    case Verifying =>
      && CompletedResult(s) && EffectsComplete(s) && s.prepared.None?
      && s.bridge.Some? && s.replay.Some? && s.verifier.Some?
    case Reviewing =>
      && CompletedResult(s) && EffectsComplete(s) && s.prepared.None?
      && s.bridge.Some? && s.verifier.Some? && s.verifier.value.Admitted?
    case Failed => true
    case Cancelled => true
  }

  predicate ValidPending(e: RunEvent) { e.sequence == 0 <==> e.previous.None? }

  predicate ValidState(s: EvState) {
    && ValidPlan(s.plan)
    && ValidAttempt(s)
    && (s.pending.Some? ==> ValidPending(s.pending.value))
    && ValidPhaseShape(s)
    && s.digest == ComputedDigest(s)
  }

  // ---------------------------------------------------------------- successors

  /** The projection a state's own transition must carry. */
  function ProjectionOf(s: EvState, from: Phase, trigger: Trigger): Projection {
    Projection(from, s.phase, trigger, s.phaseRevision, s.attempt, s.binding, s.plan, s.digest, s.ledger,
      s.result, Transcript(s.verifier), s.time)
  }

  function PhaseEventOf(s: EvState, from: Phase, trigger: Trigger, sequence: int, previous: Option<EventId>): RunEvent {
    var p := ProjectionOf(s, from, trigger);
    RunEvent(DerivePhaseEventId(p), sequence, previous, s.time, Coordinator, PhaseNote(p))
  }

  /** The pending event is the canonical event of the transition from `from` into this state. */
  predicate ValidPendingTransition(from: Phase, s: EvState) {
    && s.pending.Some?
    && var e := s.pending.value;
       && e.payload.PhaseNote?
       && ValidProjection(e.payload.projection)
       && e == PhaseEventOf(s, from, e.payload.projection.trigger, e.sequence, e.previous)
  }

  predicate ValidInitialInstall(s: EvState) {
    && ValidState(s)
    && s.attempt == 1 && s.executor.NotStarted?
    && s.ledger == [] && s.prepared.None? && s.observations == [] && s.reconciliation.None?
    && s.result.None? && s.bridge.None? && s.cancellation.None? && s.replay.None? && s.verifier.None?
    && (|| (s.phase.Planned? && s.phaseRevision == 0 && s.workspace.None?
            && s.pending.None? && s.projected.None?)
        || (&& s.phase.Engineering? && s.phaseRevision == 1
            && s.workspace.Some? && !s.workspace.value.closed && !s.workspace.value.cleanupRequired
            && ValidPendingTransition(Planned, s)))
  }

  predicate Monotonic<T(==)>(before: Option<T>, after: Option<T>) { before.None? || before == after }

  predicate ValidExecutorSuccessor(before: Executor, after: Executor) {
    || before == after
    || (before.NotStarted? && after.Started?)
    || (before.Started? && after.OutcomeRecorded?)
  }

  predicate ValidVerifierSuccessor(before: Option<Verifier>, after: Option<Verifier>) {
    || before == after
    || (before.None? && after.Some? && after.value.VerifierNotStarted?)
    || (&& before.Some? && after.Some?
        && (|| (before.value.VerifierNotStarted? && after.value.VerifierStarted?)
            || (before.value.VerifierStarted? && after.value.PublicationObserved?)
            || (before.value.PublicationObserved? && after.value.Admitted?)))
  }

  predicate ValidPreparedSuccessor(s: EvState, n: EvState) {
    || s.prepared == n.prepared
    || (s.prepared.None? && n.prepared.Some? && s.ledger == n.ledger)
    || (s.prepared.Some? && n.prepared.None? && (|n.ledger| == |s.ledger| + 1 || n.phase.Cancelled?))
  }

  predicate ValidWorkspaceSuccessor(s: EvState, n: EvState) {
    if s.workspace.None? || n.workspace.None? then s.workspace == n.workspace
    else
      var w, v := s.workspace.value, n.workspace.value;
      && w.token == v.token && w.lease == v.lease && w.attempt == v.attempt
      && w.validFrom == v.validFrom && w.validUntil == v.validUntil && w.initial == v.initial
      && (w.closed ==> v.closed)
      && (w.cleanupRequired ==> v.cleanupRequired || v.closed)
      && w.nextReceipt <= v.nextReceipt <= w.nextReceipt + 1
      && w.current.generation <= v.current.generation
      && w.heartbeatAt <= v.heartbeatAt
      && (if w.instance == v.instance then w.epoch == v.epoch && w.fence == v.fence
          else
            && v.epoch == w.epoch + 1 && v.fence == w.fence + 1 && w.heartbeatAt < v.heartbeatAt
            && w.current == v.current && w.nextReceipt == v.nextReceipt
            && w.cleanupRequired == v.cleanupRequired && w.closed == v.closed)
      && (w.current != v.current ==>
            |n.ledger| == |s.ledger| + 1 && n.ledger[|n.ledger| - 1].after == v.current)
      && (w.nextReceipt != v.nextReceipt ==> |n.observations| == |s.observations| + 1)
  }

  predicate ValidRetrySuccessor(s: EvState, n: EvState) {
    && n.attempt == s.attempt + 1
    && s.workspace.Some? && n.workspace.Some?
    && s.phase.RetryPending? && n.phase.Engineering?
    && s.workspace.value.closed && !s.workspace.value.cleanupRequired
    && !n.workspace.value.closed && !n.workspace.value.cleanupRequired
    && s.workspace.value.initial.files == n.workspace.value.initial.files
    && s.executor.OutcomeRecorded? && s.executor.outcome.ExecutorRetry?
    && n.executor.NotStarted?
    && n.ledger == [] && n.prepared.None? && n.observations == [] && n.reconciliation.None?
    && n.result.None? && n.bridge.None? && n.replay.None? && n.verifier.None?
    && s.cancellation == n.cancellation
  }

  /** What one write may change while the attempt stays the same. */
  predicate ValidSameAttemptSuccessor(s: EvState, n: EvState) {
    && s.binding == n.binding
    && s.ledger <= n.ledger && |n.ledger| <= |s.ledger| + 1
    && s.observations <= n.observations && |n.observations| <= |s.observations| + 1
    && Monotonic(s.result, n.result)
    && Monotonic(s.bridge, n.bridge)
    && Monotonic(s.replay, n.replay)
    && Monotonic(s.reconciliation, n.reconciliation)
    && Monotonic(s.cancellation, n.cancellation)
    && ValidExecutorSuccessor(s.executor, n.executor)
    && (s.executor != n.executor ==>
          && s.ledger == n.ledger && s.prepared == n.prepared && s.observations == n.observations
          && s.result == n.result && s.bridge == n.bridge && s.replay == n.replay
          && s.verifier == n.verifier && s.cancellation == n.cancellation
          && s.workspace == n.workspace && s.phase == n.phase)
    && (s.cancellation != n.cancellation ==>
          && s.ledger == n.ledger && s.prepared == n.prepared && s.observations == n.observations
          && s.result == n.result && s.bridge == n.bridge && s.replay == n.replay
          && s.verifier == n.verifier && s.executor == n.executor
          && s.workspace == n.workspace && s.phase == n.phase)
    && ValidVerifierSuccessor(s.verifier, n.verifier)
    && ValidPreparedSuccessor(s, n)
    && ValidWorkspaceSuccessor(s, n)
  }

  /** A pending projection is finished before anything else happens. */
  function Cleared(s: EvState): EvState
    requires s.pending.Some?
  {
    s.(pending := None, projected := Some(Cursor(s.pending.value.sequence, s.pending.value.id)))
  }

  predicate ValidPhaseSuccessor(s: EvState, n: EvState) {
    && s.projected == n.projected
    && if s.phase == n.phase then n.phaseRevision == s.phaseRevision && n.pending.None?
       else
         && !Terminal(s.phase)
         && n.phaseRevision == s.phaseRevision + 1
         && ValidPendingTransition(s.phase, n)
  }

  predicate ValidSuccessor(s: EvState, n: EvState) {
    && ValidState(s) && ValidState(n)
    && s.plan == n.plan
    && s.time <= n.time
    && if s.pending.Some? then n == Cleared(s)
       else
         && ValidPhaseSuccessor(s, n)
         && if n.attempt == s.attempt then ValidSameAttemptSuccessor(s, n) else ValidRetrySuccessor(s, n)
  }
}
