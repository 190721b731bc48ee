/** Every durable write the Engineer-to-Verifier controller makes: when it is attempted (`Enabled`, on
    the state the driver loaded) and which state it proposes to the store (`Next`). */
module EngineerVerifierCommands {
  import opened Common
  import opened WorkspaceFiles
  import opened RuntimeTypes
  import opened EngineerVerifierKernel

  /** The lease of a workspace root that was just root. */
  datatype Lease = Lease(
    token: Id, lease: Id, validFrom: Time, validUntil: Time, files: seq<File>, instance: Id, nextReceipt: int)

  datatype Command =
    | ClearPending
    | StartExecutor(now: Time)
    | RecordOutcome(outcome: Outcome, now: Time)
    | CloseWorkspace
    | Transition(to: Phase, trigger: Trigger, now: Time)
    | RecordResult(now: Time)
    | PrepareWrite(now: Time)
    | RecordReceipt(denied: bool, now: Time)
    | RecordReconciled(now: Time)
    | DropPrepared(now: Time)
    | MarkCleanup(now: Time)
    | RecordReplay(inputs: Id, plan: Id, now: Time)
    | StartVerifier(now: Time)
    | Observe(transcript: Id, bundle: Id, now: Time)
    | Admit(now: Time)
    | RequestCancellation(request: Id, now: Time)
    | Heartbeat(now: Time)
    | ClaimRecovery(instance: Id, now: Time)
    | ClaimRetry(root: Lease, now: Time)

  function Now(cmd: Command, otherwise: Time): Time {
    match cmd
    case ClearPending => otherwise
    case CloseWorkspace => otherwise
    case StartExecutor(now) => now
    case RecordOutcome(_, now) => now
    case Transition(_, _, now) => now
    case RecordResult(now) => now
    case PrepareWrite(now) => now
    case RecordReceipt(_, now) => now
    case RecordReconciled(now) => now
    case DropPrepared(now) => now
    case MarkCleanup(now) => now
    case RecordReplay(_, _, now) => now
    case StartVerifier(now) => now
    case Observe(_, _, now) => now
    case Admit(now) => now
    case RequestCancellation(_, now) => now
    case Heartbeat(now) => now
    case ClaimRecovery(_, now) => now
    case ClaimRetry(_, now) => now
  }

  // ---------------------------------------------------------------- when a write is attempted

  predicate Closed(s: EvState) { s.workspace.Some? && s.workspace.value.closed }

  predicate HasCompleted(s: EvState) { s.executor.OutcomeRecorded? && s.executor.outcome.Completed? }

  predicate LastDenied(s: EvState) { s.ledger != [] && s.ledger[|s.ledger| - 1].resolution.Denied? }

  predicate CancellationReached(s: EvState) {
    match s.phase
    case RetryPending => s.cancellation.Some?
    case Engineering =>
      || (Closed(s) && s.executor.OutcomeRecorded? && s.executor.outcome.ExecutorCancelled?)
      || (s.cancellation.Some?
          && ((Closed(s) && s.executor.NotStarted?) || (HasCompleted(s) && s.prepared.None?)))
    case Verifying =>
      && s.cancellation.Some? && s.verifier.Some?
      && ((Closed(s) && s.verifier.value.VerifierNotStarted?) || s.verifier.value.PublicationObserved?)
    case _ => false
  }

  predicate FailureReached(s: EvState) {
    match s.phase
    case Engineering =>
      || (&& Closed(s) && s.executor.OutcomeRecorded?
          && (s.executor.outcome.ExecutorFailed? || s.executor.outcome.ExecutorTimedOut?))
      || (s.workspace.Some? && s.workspace.value.cleanupRequired)
      || LastDenied(s)
    case Verifying =>
      && s.verifier.Some?
      && (|| (s.verifier.value.VerifierStarted? && s.cancellation.None?)
          || (Closed(s) && s.verifier.value.PublicationObserved?))
    case _ => false
  }

  /** The transitions asked for outside a claim and outside the admission of evidence. */
  predicate TransitionReached(s: EvState, to: Phase, trigger: Trigger) {
    && TransitionAllowed(s.phase, trigger, to)
    && match trigger
       case CancellationAccepted => CancellationReached(s)
       case EngineerCompleted =>
         HasCompleted(s) && s.cancellation.None? && s.verifier.Some? && s.verifier.value.VerifierNotStarted?
       case RetryRequired => Closed(s) && s.executor.OutcomeRecorded? && s.executor.outcome.ExecutorRetry?
       case ExecutorOutcomeUnknown => Closed(s) && s.executor.Started?
       case RetryExhausted => s.cancellation.None? && s.attempt + 1 > s.plan.maxAttempts
       case FailureRecorded => FailureReached(s)
       case _ => false
  }

  predicate NextEffect(s: EvState) { HasCompleted(s) && s.result.Some? && |s.ledger| < |s.plan.effects| }

  predicate NextIsWrite(s: EvState) { NextEffect(s) && s.plan.effects[|s.ledger|].WriteFile? }

  predicate Operable(s: EvState) { s.phase.Engineering? && s.workspace.Some? && !s.workspace.value.closed }

  predicate Enabled(s: EvState, cmd: Command) {
    && Now(cmd, s.time) >= s.time
    && (s.pending.Some? <==> cmd.ClearPending?)
    && match cmd
       case ClearPending => true
       case StartExecutor(_) => s.phase.Engineering? && s.executor.NotStarted? && s.cancellation.None?
       case RecordOutcome(outcome, now) =>
         && s.phase.Engineering? && s.executor.Started? && s.executor.startedAt <= now
         && ValidOutcome(outcome, s.attempt, s.plan)
       case CloseWorkspace => s.workspace.Some?
       case Transition(to, trigger, _) => TransitionReached(s, to, trigger)
       case RecordResult(_) => s.phase.Engineering? && HasCompleted(s) && s.result.None?
       case PrepareWrite(_) => Operable(s) && NextIsWrite(s) && s.prepared.None? && s.cancellation.None?
       case RecordReceipt(_, _) =>
         Operable(s) && NextEffect(s) && s.cancellation.None? && (NextIsWrite(s) <==> s.prepared.Some?)
       case RecordReconciled(_) => Operable(s) && NextIsWrite(s) && s.prepared.Some?
       case DropPrepared(_) => Operable(s) && NextIsWrite(s) && s.prepared.Some? && s.cancellation.Some?
       case MarkCleanup(_) => Operable(s) && NextIsWrite(s) && s.prepared.Some?
       case RecordReplay(_, _, _) =>
         Operable(s) && HasCompleted(s) && s.result.Some? && |s.ledger| == |s.plan.effects| && s.cancellation.None?
       case StartVerifier(_) =>
         s.phase.Verifying? && s.verifier == Some(VerifierNotStarted) && s.cancellation.None?
       case Observe(_, _, _) =>
         s.phase.Verifying? && s.verifier.Some? && s.verifier.value.VerifierStarted? && s.cancellation.None?
       case Admit(_) =>
         s.phase.Verifying? && s.verifier.Some? && s.verifier.value.PublicationObserved? && s.cancellation.None?
       case RequestCancellation(_, _) => !Terminal(s.phase) && s.cancellation.None?
       case Heartbeat(now) =>
         && !Terminal(s.phase) && s.workspace.Some?
         && var w := s.workspace.value;
            !w.closed && !w.cleanupRequired && w.heartbeatAt < now && AuthorizesTime(w, now)
       case ClaimRecovery(instance, now) =>
         && s.workspace.Some?
         && var w := s.workspace.value;
            !w.closed && !w.cleanupRequired && w.instance != instance && w.heartbeatAt < now
            && AuthorizesTime(w, now)
       case ClaimRetry(root, _) =>
         && s.phase.RetryPending? && s.cancellation.None?
         && Closed(s) && !s.workspace.value.cleanupRequired
         && s.prepared.None? && s.ledger == []
         && s.executor.OutcomeRecorded? && s.executor.outcome.ExecutorRetry?
         && s.attempt + 1 <= s.plan.maxAttempts
         && root.files == s.workspace.value.initial.files
  }

  // ---------------------------------------------------------------- what the write proposes

  function Refreshed(s: EvState, now: Time): EvState {
    s.(time := now, digest := ComputedDigest(s))
  }

  /** The event id and the link to the cursor the driver knows. */
  function Attached(s: EvState, from: Phase, trigger: Trigger): EvState {
    var sequence := if s.projected.None? then 0 else s.projected.value.sequence + 1;
    var previous := if s.projected.None? then None else Some(s.projected.value.id);
    s.(pending := Some(PhaseEventOf(s, from, trigger, sequence, previous)))
  }

  /** A phase transition and its event, in one write. */
  function Moved(s: EvState, to: Phase, trigger: Trigger, now: Time): EvState {
    Attached(Refreshed(s.(phase := to, phaseRevision := s.phaseRevision + 1), now), s.phase, trigger)
  }

  function OpenedWorkspace(l: Lease, attempt: int, now: Time): Workspace {
    var initial := Snapshot(l.lease, 0, l.files);
    Workspace(l.token, l.lease, attempt, l.validFrom, l.validUntil, initial, initial, l.instance, 1, 1, now,
      l.nextReceipt, false, false)
  }

  function ClosedState(s: EvState): EvState
    requires s.workspace.Some?
  {
    s.(workspace := Some(s.workspace.value.(closed := true, cleanupRequired := false)))
  }

  function BuildPrepared(s: EvState, now: Time): Prepared
    requires NextIsWrite(s) && s.workspace.Some?
  {
    var effect := s.plan.effects[|s.ledger|];
    var before := s.workspace.value.current;
    var file := File(effect.path, effect.content);
    var after := Snapshot(before.lease, before.generation + 1, WrittenFiles(before.files, file));
    Prepared(|s.ledger|, effect.id, s.attempt, before, after, file, s.workspace.value.nextReceipt, now)
  }

  /** The ledger entry of a receipt: a read, a write that was prepared, or a denial. */
  function ReceiptEntry(s: EvState, denied: bool): Entry
    requires NextEffect(s) && s.workspace.Some?
  {
    var effect := s.plan.effects[|s.ledger|];
    var before := s.workspace.value.current;
    var after := if denied || s.prepared.None? then before else s.prepared.value.after;
    var resolution :=
      if denied then Denied else if effect.ReadFile? then ReadObserved else WriteApplied;
    Entry(|s.ledger|, effect.id, s.attempt, resolution,
      Some(Receipt(effect.id, s.attempt, before, after)), None, before, after)
  }

  function WithReceipt(s: EvState, denied: bool, now: Time): EvState
    requires NextEffect(s) && s.workspace.Some?
  {
    var entry := ReceiptEntry(s, denied);
    Refreshed(s.(
      ledger := s.ledger + [entry],
      observations := s.observations + [entry.receipt.value],
      workspace := Some(s.workspace.value.(
        current := entry.after, nextReceipt := s.workspace.value.nextReceipt + 1)),
      prepared := None), now)
  }

  function ReconciledEntry(p: Prepared): Entry {
    Entry(p.ordinal, p.effect, p.attempt, WriteReconciledApplied, None,
      Some(Reconciliation(p.effect, p.attempt, p.before, p.after)), p.before, p.after)
  }

  function WithReconciled(s: EvState, now: Time): EvState
    requires s.prepared.Some? && s.workspace.Some?
  {
    var p := s.prepared.value;
    Refreshed(s.(
      ledger := s.ledger + [ReconciledEntry(p)],
      reconciliation := ReconciledEntry(p).reconciliation,
      workspace := Some(s.workspace.value.(current := p.after)),
      prepared := None), now)
  }

  function BridgeOf(s: EvState, inputs: Id): DiffBridge
    requires s.workspace.Some? && s.result.Some?
  {
    var w := s.workspace.value;
    DiffBridge(s.attempt, w.initial, w.current, BuildBridge(w.initial.files, w.current.files),
      s.result.value, inputs)
  }

  function Retried(s: EvState, root: Lease, now: Time): EvState {
    s.(attempt := s.attempt + 1,
       binding := Binding(s.plan.invocation, s.attempt + 1),
       executor := NotStarted,
       workspace := Some(OpenedWorkspace(root, s.attempt + 1, now)),
       ledger := [], prepared := None, observations := [], reconciliation := None,
       result := None, bridge := None, replay := None, verifier := None)
  }

  function Next(s: EvState, cmd: Command): EvState
    requires Enabled(s, cmd)
  {
    match cmd
    case ClearPending => Cleared(s)
    case StartExecutor(now) => Refreshed(s.(executor := Started(s.attempt, now)), now)
    case RecordOutcome(outcome, now) =>
      Refreshed(s.(executor := OutcomeRecorded(s.executor.attempt, s.executor.startedAt, outcome, now)), now)
    case CloseWorkspace => ClosedState(s)
    case Transition(to, trigger, now) => Moved(s, to, trigger, now)
    case RecordResult(now) => Refreshed(s.(result := Some(s.executor.outcome.result)), now)
    case PrepareWrite(now) => Refreshed(s.(prepared := Some(BuildPrepared(s, now))), now)
    case RecordReceipt(denied, now) => WithReceipt(s, denied, now)
    case RecordReconciled(now) => WithReconciled(s, now)
    case DropPrepared(now) => Refreshed(s.(prepared := None), now)
    case MarkCleanup(now) =>
      Refreshed(s.(workspace := Some(s.workspace.value.(cleanupRequired := true))), now)
    case RecordReplay(inputs, chosen, now) =>
      Refreshed(s.(bridge := Some(BridgeOf(s, inputs)), replay := Some(chosen),
                   verifier := Some(VerifierNotStarted)), now)
    case StartVerifier(now) => Refreshed(s.(verifier := Some(VerifierStarted(now))), now)
    case Observe(transcript, bundle, now) =>
      Refreshed(s.(verifier := Some(PublicationObserved(transcript, bundle, now))), now)
    case Admit(now) =>
      var v := s.verifier.value;
      Moved(s.(verifier := Some(Admitted(v.transcript, v.bundle, v.observedAt, now))),
        Reviewing, VerificationEvidenceAccepted, now)
    case RequestCancellation(request, now) =>
      Refreshed(s.(cancellation := Some(Cancellation(request, now))), now)
    case Heartbeat(now) => Refreshed(s.(workspace := Some(s.workspace.value.(heartbeatAt := now))), now)
    case ClaimRecovery(instance, now) =>
      var w := s.workspace.value;
      Refreshed(s.(workspace := Some(w.(epoch := w.epoch + 1, fence := w.fence + 1,
                                        heartbeatAt := now, instance := instance))), now)
    case ClaimRetry(root, now) => Moved(Retried(s, root, now), Engineering, RetryClaimAccepted, now)
  }

  /** The planned write would change nothing: such a run is closed again before it is installed. */
  predicate TargetMatches(plan: Plan, files: seq<File>) {
    && plan.effects != [] && plan.effects[|plan.effects| - 1].WriteFile?
    && var write := plan.effects[|plan.effects| - 1];
       Lookup(files, write.path) == Some(File(write.path, write.content))
  }

  /** The first install: the planned state, claimed and moved to Engineering in one write. */
  function Claimed(plan: Plan, root: Lease, cursor: Option<Cursor>, now: Time): EvState {
    var planned := EvState(plan, Planned, 0, 1, Binding(plan.invocation, 1), NotStarted,
      Some(OpenedWorkspace(root, 1, now)), [], None, [], None, None, None, None, None, cursor, None, None, now,
      StateDigest(Planned, 0, 1, plan, Binding(plan.invocation, 1), [], None, None));
    Moved(planned, Engineering, ClaimAccepted, now)
  }

  // ---------------------------------------------------------------- what the store makes of it

  /** An applied write: attempted by the controller and accepted by the kernel. */
  predicate Accepted(s: EvState, cmd: Command) {
    Enabled(s, cmd) && Next(s, cmd) != s && ValidSuccessor(s, Next(s, cmd))
  }
}
