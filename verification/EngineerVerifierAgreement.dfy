/** Where the controller and the kernel agree: which of the writes the controller attempts the store
    accepts, exactly. */
module EngineerVerifierAgreement {
  import opened Common
  import opened WorkspaceFiles
  import opened RuntimeTypes
  import opened EngineerVerifierKernel
  import opened EngineerVerifierCommands
  import opened EngineerVerifierRuns
  import opened EngineerVerifierOutbox
  import opened EngineerVerifierCalls
  import opened EngineerVerifierEffects

  /** What every state of a run satisfies besides being valid. */
  predicate Sound(s: EvState) {
    && ValidState(s)
    && (s.workspace.Some? ==> LedgerExplains(s, s.workspace.value))
    && (s.projected.Some? ==> s.projected.value.sequence >= 0)
  }

  predicate ClosableWhileEngineering(s: EvState) {
    && s.ledger == [] && s.prepared.None?
    && (s.cancellation.Some? || s.executor.Started? || RetryableOutcome(s.executor))
  }

  predicate Keeps<T(==)>(before: Option<T>, value: T) { before.None? || before == Some(value) }

  /** The writes the store refuses although their guard lets them through. The guard of a command is wider than
      the controller in places: it proposes other replay inputs than those stored, or a retry with entries in
      the ledger, which the controller never does. What a run really attempts of these is a dropped write, and
      an entry or a verification after a denial. */
  predicate Refused(s: EvState, cmd: Command)
    requires Enabled(s, cmd)
  {
    match cmd
    case DropPrepared(_) => true
    case RecordOutcome(outcome, _) => Closed(s) && outcome.Completed? && s.cancellation.None?
    case PrepareWrite(_) =>
      var effect := s.plan.effects[|s.ledger|];
      Lookup(s.workspace.value.current.files, effect.path) == Some(WrittenFile(effect))
    case RecordReceipt(_, _) => LastDenied(s)
    case RecordReconciled(_) => LastDenied(s)
    case CloseWorkspace => s.phase.Engineering? && !ClosableWhileEngineering(s)
    case RecordReplay(inputs, chosen, _) =>
      || !Keeps(s.bridge, BridgeOf(s, inputs)) || !Keeps(s.replay, chosen)
      || (s.verifier.Some? && !s.verifier.value.VerifierNotStarted?)
    case Transition(_, trigger, _) =>
      || (trigger.EngineerCompleted?
          && (!CompletedResult(s) || !EffectsComplete(s) || s.prepared.Some? || s.bridge.None?))
      || (trigger.RetryRequired? && (s.ledger != [] || s.prepared.Some?))
    case ClaimRetry(root, now) => root.nextReceipt <= 0 || !(root.validFrom <= now < root.validUntil)
    case _ => false
  }

  predicate Agrees(s: EvState, cmd: Command)
    requires Enabled(s, cmd)
  {
    ValidSuccessor(s, Next(s, cmd)) <==> !Refused(s, cmd)
  }

  lemma ClearAgrees(s: EvState)
    requires Sound(s) && Enabled(s, ClearPending)
    ensures Agrees(s, ClearPending)
  {
    hide LedgerExplains;
    var n := Cleared(s);
    assert ValidPlan(n.plan);
    assert ValidAttempt(n);
    assert ValidPhaseShape(n);
    assert ValidState(n);
  }

  lemma StartAgrees(s: EvState, now: Time)
    requires Sound(s) && Enabled(s, StartExecutor(now))
    ensures Agrees(s, StartExecutor(now))
  {
    hide LedgerExplains;
  }

  lemma OutcomeAgrees(s: EvState, outcome: Outcome, now: Time)
    requires Sound(s) && Enabled(s, RecordOutcome(outcome, now))
    ensures Agrees(s, RecordOutcome(outcome, now))
  {
    hide LedgerExplains;
    var n := Next(s, RecordOutcome(outcome, now));
    assert ValidExecutor(n.executor, n.binding, n.plan);
    assert ValidAttempt(n);
    assert ValidPhaseShape(n) <==> !(Closed(s) && outcome.Completed? && s.cancellation.None?);
  }

  lemma CancellationAgrees(s: EvState, cmd: Command)
    requires Sound(s) && Enabled(s, cmd) && cmd.RequestCancellation?
    ensures Agrees(s, cmd)
  {
    hide LedgerExplains;
  }

  lemma ResultAgrees(s: EvState, cmd: Command)
    requires Sound(s) && Enabled(s, cmd) && cmd.RecordResult?
    ensures Agrees(s, cmd)
  {
    hide LedgerExplains;
  }

  lemma HeartbeatAgrees(s: EvState, now: Time)
    requires Sound(s) && Enabled(s, Heartbeat(now))
    ensures Agrees(s, Heartbeat(now))
  {
    hide LedgerExplains, Receipts, ValidLedger, ValidExecutor, ValidDiffBridge, ValidPrepared, ValidPlan;
  }

  lemma RecoveryAgrees(s: EvState, instance: Id, now: Time)
    requires Sound(s) && Enabled(s, ClaimRecovery(instance, now))
    ensures Agrees(s, ClaimRecovery(instance, now))
  {
    hide LedgerExplains, Receipts, ValidLedger, ValidExecutor, ValidDiffBridge, ValidPrepared, ValidPlan;
  }

  lemma CleanupAgrees(s: EvState, now: Time)
    requires Sound(s) && Enabled(s, MarkCleanup(now))
    ensures Agrees(s, MarkCleanup(now))
  {
    hide LedgerExplains, Receipts, ValidLedger, ValidExecutor, ValidDiffBridge, ValidPrepared, ValidPlan;
  }

  lemma VerifierAgrees(s: EvState, cmd: Command)
    requires Sound(s) && Enabled(s, cmd) && (cmd.StartVerifier? || cmd.Observe?)
    ensures Agrees(s, cmd)
  {
    hide LedgerExplains;
  }

  lemma CloseAgrees(s: EvState)
    requires Sound(s) && Enabled(s, CloseWorkspace)
    ensures Agrees(s, CloseWorkspace)
  {
    hide LedgerExplains;
  }

  // ---------------------------------------------------------------- effects

  lemma ReceiptsAppend(ledger: seq<Entry>, e: Entry)
    ensures Receipts(ledger + [e]) == Receipts(ledger) + if e.receipt.Some? then [e.receipt.value] else []
  {
    assert (ledger + [e])[..|ledger|] == ledger;
  }

  /** A further entry keeps the ledger valid, and a recorded reconciliation stays in it. */
  lemma LedgerAppends(s: EvState, e: Entry)
    requires ValidState(s) && |s.ledger| < |s.plan.effects| && !LastDenied(s)
    requires ValidEntry(e) && e.ordinal == |s.ledger| && e.effect == s.plan.effects[|s.ledger|].id && e.attempt == s.attempt
    ensures ValidLedger(s.plan, s.attempt, s.ledger + [e])
    ensures s.reconciliation.Some? ==>
              exists i :: 0 <= i < |s.ledger + [e]| && (s.ledger + [e])[i].reconciliation == s.reconciliation
    ensures Receipts(s.ledger + [e]) == s.observations + if e.receipt.Some? then [e.receipt.value] else []
  {
    ReceiptsAppend(s.ledger, e);
    var after := s.ledger + [e];
    assert forall i :: 0 <= i < |s.ledger| ==> after[i] == s.ledger[i];
    if s.reconciliation.Some? {
      var i :| 0 <= i < |s.ledger| && s.ledger[i].reconciliation == s.reconciliation;
      assert after[i].reconciliation == s.reconciliation;
    }
  }

  lemma WrittenFilesAreValid(before: Snapshot, file: File)
    requires ValidSnapshot(before)
    ensures ValidSnapshot(WrittenSnapshot(before, file))
    ensures WrittenSnapshot(before, file).files == ExactAfterFiles(before.files, file)
  {
    WriteKeepsListAndOtherPaths(before.files, file, 0);
    PreparedListIsExact(before.files, file);
  }

  lemma PrepareAgrees(s: EvState, now: Time)
    requires Sound(s) && Enabled(s, PrepareWrite(now))
    ensures Agrees(s, PrepareWrite(now))
  {
    hide LedgerExplains, WrittenFiles, ExactAfterFiles, Lookup, Receipts, ValidLedger, ValidExecutor, ValidDiffBridge;
    hide ValidPlan, AuthorizesTime, Sorted;
    var effect := s.plan.effects[|s.ledger|];
    var p := BuildPrepared(s, now);
    PreparedIsValidIff(s, now);
    hide ValidPrepared, BuildPrepared;
    var n := Next(s, PrepareWrite(now));
    assert n == Refreshed(s.(prepared := Some(p)), now);
    assert PreparedFits(n, p) by { PreparedFitsNext(s, now); }
    hide PreparedFits;
    assert ValidState(n) <==> ValidPrepared(p);
  }

  lemma PreparedIsValidIff(s: EvState, now: Time)
    requires ValidState(s) && Enabled(s, PrepareWrite(now))
    ensures var effect := s.plan.effects[|s.ledger|];
            ValidPrepared(BuildPrepared(s, now))
            <==> Lookup(s.workspace.value.current.files, effect.path) != Some(WrittenFile(effect))
  {
    WrittenFilesAreValid(s.workspace.value.current, WrittenFile(s.plan.effects[|s.ledger|]));
    hide WrittenFiles, ExactAfterFiles, Lookup, Receipts, ValidLedger, Sorted;
  }

  lemma PreparedFitsNext(s: EvState, now: Time)
    requires Enabled(s, PrepareWrite(now))
    ensures PreparedFits(Refreshed(s.(prepared := Some(BuildPrepared(s, now))), now), BuildPrepared(s, now))
  {
    hide WrittenFiles;
  }

  lemma DropAgrees(s: EvState, now: Time)
    requires Sound(s) && Enabled(s, DropPrepared(now))
    ensures Agrees(s, DropPrepared(now))
  {
    DroppingAPreparedWriteIsRefused(s, now);
  }

  /** The entry a receipt makes, and the state around it, fit the kernel's rules. */
  lemma ReceiptEntryFits(s: EvState, denied: bool, now: Time)
    requires Sound(s) && Enabled(s, RecordReceipt(denied, now))
    ensures var e := ReceiptEntry(s, denied);
            && ValidEntry(e) && e.ordinal == |s.ledger| && e.effect == s.plan.effects[|s.ledger|].id
            && e.attempt == s.attempt && e.receipt.Some?
            && ValidSnapshot(e.after) && e.after.lease == s.workspace.value.lease
            && s.workspace.value.current.generation <= e.after.generation
            && (s.workspace.value.current == e.after || !denied)
  {
    hide LedgerExplains, Receipts, ValidLedger, Sorted, ExactAfterFiles, Lookup;
    if s.prepared.Some? { assert ValidPrepared(s.prepared.value) && PreparedFits(s, s.prepared.value); }
  }

  /** After a denial no further entry is valid. */
  lemma NothingFollowsADenial(s: EvState, e: Entry)
    requires ValidState(s) && LastDenied(s)
    ensures !ValidLedger(s.plan, s.attempt, s.ledger + [e])
  {
    var after := s.ledger + [e];
    assert after[|s.ledger| - 1] == s.ledger[|s.ledger| - 1];
  }

  /** A write that records one more entry is accepted when the ledger, the receipts and the reconciliation
      it leaves fit together. */
  lemma RecordedEntryIsAccepted(
      s: EvState, e: Entry, observations: seq<Receipt>, reconciliation: Option<Reconciliation>, next: int, now: Time)
    requires ValidState(s) && Operable(s) && s.pending.None? && s.time <= now
    requires ValidLedger(s.plan, s.attempt, s.ledger + [e]) && observations == Receipts(s.ledger + [e])
    requires s.observations <= observations && |observations| <= |s.observations| + 1
    requires reconciliation.Some? ==>
               exists i :: 0 <= i < |s.ledger + [e]| && (s.ledger + [e])[i].reconciliation == reconciliation
    requires Monotonic(s.reconciliation, reconciliation)
    requires var w := s.workspace.value;
             && ValidSnapshot(e.after) && e.after.lease == w.lease && w.current.generation <= e.after.generation
             && w.nextReceipt <= next <= w.nextReceipt + 1
             && (next != w.nextReceipt ==> |observations| == |s.observations| + 1)
    ensures var n := Refreshed(s.(ledger := s.ledger + [e], observations := observations,
                                  reconciliation := reconciliation,
                                  workspace := Some(s.workspace.value.(current := e.after, nextReceipt := next)),
                                  prepared := None), now);
            ValidSuccessor(s, n)
  {
    hide Receipts, ValidLedger, ValidDiffBridge, ValidPrepared, ValidPlan, ValidSnapshot, ValidEntry;
  }

  lemma NoEntryAfterDenialIsAccepted(s: EvState, n: EvState, e: Entry)
    requires ValidState(s) && LastDenied(s) && n.plan == s.plan && n.attempt == s.attempt && n.ledger == s.ledger + [e]
    ensures !ValidSuccessor(s, n)
  {
    NothingFollowsADenial(s, e);
    hide ValidLedger;
    assert !ValidAttempt(n);
  }

  lemma ReceiptAgrees(s: EvState, denied: bool, now: Time)
    requires Sound(s) && Enabled(s, RecordReceipt(denied, now))
    ensures Agrees(s, RecordReceipt(denied, now))
  {
    hide ValidState, ReceiptEntry, ValidSnapshot, ValidEntry, ValidLedger, Receipts, ValidSuccessor, LedgerExplains;
    var e := ReceiptEntry(s, denied);
    var n := WithReceipt(s, denied, now);
    assert Next(s, RecordReceipt(denied, now)) == n && n.ledger == s.ledger + [e];
    ReceiptEntryFits(s, denied, now);
    if LastDenied(s) {
      NoEntryAfterDenialIsAccepted(s, n, e);
    } else {
      LedgerAppends(s, e);
      RecordedEntryIsAccepted(s, e, n.observations, s.reconciliation, s.workspace.value.nextReceipt + 1, now);
    }
  }

  lemma ReconciledEntryFits(s: EvState, now: Time)
    requires Sound(s) && Enabled(s, RecordReconciled(now))
    ensures var e := ReconciledEntry(s.prepared.value);
            && ValidEntry(e) && e.ordinal == |s.ledger| && e.effect == s.plan.effects[|s.ledger|].id
            && e.attempt == s.attempt && e.receipt.None?
            && ValidSnapshot(e.after) && e.after.lease == s.workspace.value.lease
            && s.workspace.value.current.generation <= e.after.generation
  {
    assert ValidPrepared(s.prepared.value) && PreparedFits(s, s.prepared.value);
    hide LedgerExplains, Receipts, ValidLedger, Sorted, ExactAfterFiles, Lookup;
  }

  lemma ReconciledAgrees(s: EvState, now: Time)
    requires Sound(s) && Enabled(s, RecordReconciled(now))
    ensures Agrees(s, RecordReconciled(now))
  {
    hide ValidState, ValidSnapshot, ValidEntry, ValidLedger, Receipts, ValidSuccessor, LedgerExplains;
    var e := ReconciledEntry(s.prepared.value);
    var n := WithReconciled(s, now);
    assert Next(s, RecordReconciled(now)) == n && n.ledger == s.ledger + [e];
    ReconciledEntryFits(s, now);
    NothingReconciledYet(s);
    if LastDenied(s) {
      NoEntryAfterDenialIsAccepted(s, n, e);
    } else {
      LedgerAppends(s, e);
      assert (s.ledger + [e])[|s.ledger|].reconciliation == n.reconciliation;
      StateObservations(s);
      assert s.observations + [] == s.observations;
      RecordedEntryIsAccepted(s, e, n.observations, n.reconciliation, s.workspace.value.nextReceipt, now);
    }
  }

  lemma StateObservations(s: EvState)
    requires ValidState(s)
    ensures s.observations == Receipts(s.ledger)
  {
  }

  /** The single slot for a reconciliation is free: only the last effect of a plan writes. */
  lemma NothingReconciledYet(s: EvState)
    requires Sound(s) && NextIsWrite(s) && s.workspace.Some?
    ensures s.reconciliation.None?
  {
    forall i | 0 <= i < |s.ledger| ensures s.ledger[i].reconciliation.None? {
      assert s.plan.effects[i].ReadFile?;
      assert ValidEntry(s.ledger[i]);
      assert RealWrite(s.plan.effects, s.ledger, s.workspace.value.initial, i);
    }
  }

  // ---------------------------------------------------------------- transitions and claims

  /** The event attached to a move is the canonical one, linked to the stored cursor. */
  lemma MovedHasItsEvent(s: EvState, to: Phase, trigger: Trigger, now: Time)
    requires s.projected.Some? ==> s.projected.value.sequence >= 0
    requires TransitionAllowed(s.phase, trigger, to) && s.phaseRevision >= 0 && s.attempt > 0
    ensures var n := Moved(s, to, trigger, now);
            ValidPendingTransition(s.phase, n) && ValidPending(n.pending.value) && n.digest == ComputedDigest(n)
  {
  }

  lemma TransitionAgrees(s: EvState, to: Phase, trigger: Trigger, now: Time)
    requires Sound(s) && s.phaseRevision >= 0 && Enabled(s, Transition(to, trigger, now))
    ensures Agrees(s, Transition(to, trigger, now))
  {
    var n := Moved(s, to, trigger, now);
    assert Next(s, Transition(to, trigger, now)) == n;
    MovedHasItsEvent(s, to, trigger, now);
    MovedIsValidIff(s, to, trigger, now);
    hide LedgerExplains, ValidPendingTransition, ValidState, ComputedDigest, Enabled;
    MovedIsASuccessor(s, to, trigger, now);
    hide *;
  }

  lemma MovedIsValidIff(s: EvState, to: Phase, trigger: Trigger, now: Time)
    requires Sound(s) && s.phaseRevision >= 0 && Enabled(s, Transition(to, trigger, now))
    ensures ValidState(Moved(s, to, trigger, now)) <==> !Refused(s, Transition(to, trigger, now))
  {
    hide LedgerExplains, Receipts, ValidExecutor, ValidDiffBridge, ValidPrepared, ValidPlan, ValidWorkspace;
    hide ValidPendingTransition, ProjectionOf, PhaseEventOf;
    var n := Moved(s, to, trigger, now);
    MovedHasItsEvent(s, to, trigger, now);
    hide ValidLedger;
    assert ValidAttempt(n);
  }

  lemma MovedIsASuccessor(s: EvState, to: Phase, trigger: Trigger, now: Time)
    requires ValidState(s) && s.pending.None? && s.time <= now && s.phaseRevision >= 0
    requires TransitionAllowed(s.phase, trigger, to)
    requires var n := Moved(s, to, trigger, now); ValidPendingTransition(s.phase, n)
    ensures ValidSuccessor(s, Moved(s, to, trigger, now)) <==> ValidState(Moved(s, to, trigger, now))
  {
    hide ValidState, ValidPendingTransition, ComputedDigest, PhaseEventOf;
  }

  function WithAdmitted(s: EvState, now: Time): EvState
    requires Enabled(s, Admit(now))
  {
    var v := s.verifier.value;
    s.(verifier := Some(Admitted(v.transcript, v.bundle, v.observedAt, now)))
  }

  lemma AdmittedIsValid(s: EvState, now: Time)
    requires Sound(s) && s.phaseRevision >= 0 && Enabled(s, Admit(now))
    ensures ValidState(Moved(WithAdmitted(s, now), Reviewing, VerificationEvidenceAccepted, now))
  {
    hide LedgerExplains, Receipts, ValidExecutor, ValidDiffBridge, ValidPrepared, ValidPlan, ValidWorkspace;
    hide ValidPendingTransition, ProjectionOf, PhaseEventOf, ComputedDigest, EffectsComplete;
    var n := Moved(WithAdmitted(s, now), Reviewing, VerificationEvidenceAccepted, now);
    MovedHasItsEvent(WithAdmitted(s, now), Reviewing, VerificationEvidenceAccepted, now);
    hide ValidLedger;
    assert n.ledger == s.ledger && n.plan == s.plan;
    assert ValidAttempt(n);
    SameEffects(s, n);
  }

  lemma SameEffects(s: EvState, n: EvState)
    requires n.plan == s.plan && n.ledger == s.ledger
    ensures EffectsComplete(n) == EffectsComplete(s)
  {
  }

  lemma AdmittedChangesTheVerifier(s: EvState, now: Time)
    requires Enabled(s, Admit(now))
    ensures ValidSameAttemptSuccessor(s, Moved(WithAdmitted(s, now), Reviewing, VerificationEvidenceAccepted, now))
  {
    hide PhaseEventOf, ComputedDigest;
  }

  lemma AdmittedMovesThePhase(s: EvState, now: Time)
    requires Enabled(s, Admit(now)) && s.phaseRevision >= 0 && s.attempt > 0
    requires s.projected.Some? ==> s.projected.value.sequence >= 0
    ensures var n := Moved(WithAdmitted(s, now), Reviewing, VerificationEvidenceAccepted, now);
            Next(s, Admit(now)) == n && ValidPhaseSuccessor(s, n) && n.attempt == s.attempt
            && n.plan == s.plan && s.time <= n.time && s.pending.None?
  {
    hide ValidPendingTransition, ComputedDigest, PhaseEventOf, ValidPending;
    MovedHasItsEvent(WithAdmitted(s, now), Reviewing, VerificationEvidenceAccepted, now);
  }

  lemma AdmittedIsASuccessor(s: EvState, now: Time)
    requires ValidState(s) && s.phaseRevision >= 0 && Enabled(s, Admit(now))
    requires s.projected.Some? ==> s.projected.value.sequence >= 0
    ensures var n := Moved(WithAdmitted(s, now), Reviewing, VerificationEvidenceAccepted, now);
            Next(s, Admit(now)) == n && (ValidState(n) ==> ValidSuccessor(s, n))
  {
    assert s.attempt > 0;
    hide ValidState, ValidSameAttemptSuccessor, ValidPhaseSuccessor, Enabled, Next, Moved, WithAdmitted;
    AdmittedChangesTheVerifier(s, now);
    AdmittedMovesThePhase(s, now);
  }

  lemma AdmitAgrees(s: EvState, now: Time)
    requires Sound(s) && s.phaseRevision >= 0 && Enabled(s, Admit(now))
    ensures Agrees(s, Admit(now))
  {
    hide ValidState, Moved, Next, Enabled, ValidSuccessor;
    AdmittedIsValid(s, now);
    assert ValidState(s) && (s.projected.Some? ==> s.projected.value.sequence >= 0);
    AdmittedIsASuccessor(s, now);
  }

  lemma ReplayAgrees(s: EvState, inputs: Id, chosen: Id, now: Time)
    requires Sound(s) && Enabled(s, RecordReplay(inputs, chosen, now))
    ensures Agrees(s, RecordReplay(inputs, chosen, now))
  {
    hide LedgerExplains, Receipts, ValidLedger, ValidExecutor, ValidDiffBridge, ValidPrepared, ValidPlan;
    hide ValidWorkspace, BuildBridge;
    BridgeShowsWhatTheLedgerWrote(s, inputs);
    var n := Next(s, RecordReplay(inputs, chosen, now));
    assert n.bridge == Some(BridgeOf(s, inputs));
    assert ValidAttempt(n);
  }

  /** A claimed retry is a valid state exactly when its lease is good at the time of the claim. */
  lemma RetriedIsValidIff(s: EvState, root: Lease, now: Time)
    requires Sound(s) && s.phaseRevision >= 0 && Enabled(s, ClaimRetry(root, now))
    ensures ValidState(Moved(Retried(s, root, now), Engineering, RetryClaimAccepted, now))
        <==> !Refused(s, ClaimRetry(root, now))
  {
    var n := Moved(Retried(s, root, now), Engineering, RetryClaimAccepted, now);
    MovedHasItsEvent(Retried(s, root, now), Engineering, RetryClaimAccepted, now);
    hide LedgerExplains, ValidDiffBridge, ValidPrepared, ValidPendingTransition, ProjectionOf, PhaseEventOf, Sorted;
    assert ValidWorkspace(n.workspace.value) <==> root.nextReceipt > 0;
    hide ValidWorkspace, ComputedDigest;
    assert ValidLedger(n.plan, n.attempt, n.ledger) && Receipts(n.ledger) == [];
    hide ValidLedger, Receipts;
  }

  lemma RetriedIsASuccessor(s: EvState, root: Lease, now: Time)
    requires ValidState(s) && s.phaseRevision >= 0 && Enabled(s, ClaimRetry(root, now))
    requires s.projected.Some? ==> s.projected.value.sequence >= 0
    ensures var n := Moved(Retried(s, root, now), Engineering, RetryClaimAccepted, now);
            Next(s, ClaimRetry(root, now)) == n && (ValidSuccessor(s, n) <==> ValidState(n))
  {
    hide ValidPendingTransition, ComputedDigest, PhaseEventOf, ValidPending;
    assert s.attempt > 0;
    MovedHasItsEvent(Retried(s, root, now), Engineering, RetryClaimAccepted, now);
    hide ValidState;
  }

  lemma RetryAgrees(s: EvState, root: Lease, now: Time)
    requires Sound(s) && s.phaseRevision >= 0 && Enabled(s, ClaimRetry(root, now))
    ensures Agrees(s, ClaimRetry(root, now))
  {
    hide ValidState, Moved, Retried, Next, Enabled, Refused, ValidSuccessor;
    RetriedIsValidIff(s, root, now);
    assert ValidState(s) && (s.projected.Some? ==> s.projected.value.sequence >= 0);
    RetriedIsASuccessor(s, root, now);
  }

  /** The controller against the kernel: for every state of a run and every write whose guard holds
      on it, the store accepts the write exactly unless it is one of the refused ones. */
  lemma StoreAcceptsUnlessRefused(s: EvState, cmd: Command)
    requires Sound(s) && s.phaseRevision >= 0 && Enabled(s, cmd)
    ensures ValidSuccessor(s, Next(s, cmd)) <==> !Refused(s, cmd)
  {
    hide Sound, Enabled, Next, ValidSuccessor, Refused;
    match cmd
    case ClearPending => ClearAgrees(s);
    case StartExecutor(now) => StartAgrees(s, now);
    case RecordOutcome(outcome, now) => OutcomeAgrees(s, outcome, now);
    case CloseWorkspace => CloseAgrees(s);
    case Transition(to, trigger, now) => TransitionAgrees(s, to, trigger, now);
    case RecordResult(now) => ResultAgrees(s, cmd);
    case PrepareWrite(now) => PrepareAgrees(s, now);
    case RecordReceipt(denied, now) => ReceiptAgrees(s, denied, now);
    case RecordReconciled(now) => ReconciledAgrees(s, now);
    case DropPrepared(now) => DropAgrees(s, now);
    case MarkCleanup(now) => CleanupAgrees(s, now);
    case RecordReplay(inputs, chosen, now) => ReplayAgrees(s, inputs, chosen, now);
    case StartVerifier(now) => VerifierAgrees(s, cmd);
    case Observe(transcript, bundle, now) => VerifierAgrees(s, cmd);
    case Admit(now) => AdmitAgrees(s, now);
    case RequestCancellation(request, now) => CancellationAgrees(s, cmd);
    case Heartbeat(now) => HeartbeatAgrees(s, now);
    case ClaimRecovery(instance, now) => RecoveryAgrees(s, instance, now);
    case ClaimRetry(root, now) => RetryAgrees(s, root, now);
  }

  // ---------------------------------------------------------------- over every run

  predicate NumbersInv(w: World) {
    w.state.Some? ==>
      var s := w.state.value;
      && s.phaseRevision >= 0
      && (s.projected.Some? ==> s.projected.value.sequence >= 0)
      && (s.pending.Some? ==> s.pending.value.sequence >= 0)
  }

  lemma NextKeepsNumbers(s: EvState, cmd: Command)
    requires Enabled(s, cmd) && s.phaseRevision >= 0
    requires s.projected.Some? ==> s.projected.value.sequence >= 0
    requires s.pending.Some? ==> s.pending.value.sequence >= 0
    ensures var n := Next(s, cmd);
            && n.phaseRevision >= 0
            && (n.projected.Some? ==> n.projected.value.sequence >= 0)
            && (n.pending.Some? ==> n.pending.value.sequence >= 0)
  {
  }

  lemma InstallNumbers(w: World, d: DriverId, plan: Plan, cursor: Option<Cursor>, now: Time)
    requires InstallApplies(w, d, plan, cursor, now)
    ensures NumbersInv(InstallStep(w, d, plan, cursor, now))
  {
  }

  lemma ActionKeepsNumbers(w: World, a: Action)
    requires NumbersInv(w)
    ensures NumbersInv(Apply(w, a))
  {
    match a
    case Install(d, plan, cursor, now) =>
      if InstallApplies(w, d, plan, cursor, now) { InstallNumbers(w, d, plan, cursor, now); }
      hide InstallApplies;
    case Commit(d, cmd) =>
      hide CommitApplies, Next, Enabled, Accepted, ValidSuccessor;
      if CommitApplies(w, d, cmd) {
        CommitIsAWrite(w, d, cmd);
        hide CommitStep;
        NextKeepsNumbers(w.state.value, cmd);
      }
    case _ => OtherStepsKeepState(w, a); hide Apply;
  }

  lemma {:induction false} EveryRunKeepsNumbers(base: seq<RunEvent>, actions: seq<Action>)
    ensures NumbersInv(Run(Start(base), actions))
    decreases |actions|
  {
    hide Apply;
    if actions != [] {
      var front := actions[..|actions| - 1];
      EveryRunKeepsNumbers(base, front);
      hide NumbersInv;
      ActionKeepsNumbers(Run(Start(base), front), actions[|actions| - 1]);
    }
  }

  /** In every state of every run the controller and the store agree, except on the refused writes. */
  lemma EveryRunAgrees(base: seq<RunEvent>, actions: seq<Action>, cmd: Command)
    requires Run(Start(base), actions).state.Some? && Enabled(Run(Start(base), actions).state.value, cmd)
    ensures var s := Run(Start(base), actions).state.value;
            ValidSuccessor(s, Next(s, cmd)) <==> !Refused(s, cmd)
  {
    EveryRunKeepsNumbers(base, actions);
    EveryRunKeepsEffects(base, actions);
    var w := Run(Start(base), actions);
    hide Run, Enabled, Next, ValidSuccessor, Refused;
    StoredIsExplained(w);
    hide EffectsInv, ValidState, LedgerExplains;
    StoreAcceptsUnlessRefused(w.state.value, cmd);
  }

  // ---------------------------------------------------------------- prepared writes always change something

  predicate TargetInv(w: World) {
    w.state.Some? && w.state.value.workspace.Some? ==>
      !TargetMatches(w.state.value.plan, w.state.value.workspace.value.initial.files)
  }

  lemma NextKeepsTarget(s: EvState, cmd: Command)
    requires Enabled(s, cmd)
    ensures var n := Next(s, cmd);
            && n.plan == s.plan && (n.workspace.Some? ==> s.workspace.Some?)
            && (n.workspace.Some? ==> n.workspace.value.initial.files == s.workspace.value.initial.files)
  {
  }

  lemma InstallSetsTarget(w: World, d: DriverId, plan: Plan, cursor: Option<Cursor>, now: Time)
    requires InstallApplies(w, d, plan, cursor, now)
    ensures TargetInv(InstallStep(w, d, plan, cursor, now))
  {
    hide ValidInitialInstall, TargetMatches;
  }

  lemma ActionKeepsTarget(w: World, a: Action)
    requires TargetInv(w)
    ensures TargetInv(Apply(w, a))
  {
    hide TargetMatches;
    match a
    case Install(d, plan, cursor, now) =>
      if InstallApplies(w, d, plan, cursor, now) { InstallSetsTarget(w, d, plan, cursor, now); }
      hide InstallApplies;
    case Commit(d, cmd) =>
      hide CommitApplies, Next, Enabled, Accepted, ValidSuccessor;
      if CommitApplies(w, d, cmd) {
        CommitIsAWrite(w, d, cmd);
        hide CommitStep;
        NextKeepsTarget(w.state.value, cmd);
      }
    case _ => OtherStepsKeepState(w, a); hide Apply;
  }

  lemma {:induction false} EveryRunKeepsTarget(base: seq<RunEvent>, actions: seq<Action>)
    ensures TargetInv(Run(Start(base), actions))
    decreases |actions|
  {
    hide Apply;
    if actions != [] {
      var front := actions[..|actions| - 1];
      EveryRunKeepsTarget(base, front);
      hide TargetInv;
      ActionKeepsTarget(Run(Start(base), front), actions[|actions| - 1]);
    }
  }

  /** The store's one reservation about preparing a write never comes up: in every state of every run, a
      write the controller prepares changes its file. */
  lemma PreparedWritesAreNeverRefused(base: seq<RunEvent>, actions: seq<Action>, now: Time)
    requires Run(Start(base), actions).state.Some?
    requires Enabled(Run(Start(base), actions).state.value, PrepareWrite(now))
    ensures var s := Run(Start(base), actions).state.value;
            ValidSuccessor(s, Next(s, PrepareWrite(now)))
  {
    hide Run, Next, ValidSuccessor, EffectsInv, ValidState, LedgerExplains;
    EveryRunKeepsTarget(base, actions);
    EveryRunKeepsEffects(base, actions);
    EveryRunAgrees(base, actions, PrepareWrite(now));
    var w := Run(Start(base), actions);
    StoredIsExplained(w);
    NextWriteIsOnInitialFiles(w.state.value);
  }

  /** Only reads come before a plan's write, so it meets the initial files. */
  lemma NextWriteIsOnInitialFiles(s: EvState)
    requires ValidState(s) && s.workspace.Some? && LedgerExplains(s, s.workspace.value) && NextIsWrite(s)
    ensures s.workspace.value.current == s.workspace.value.initial && |s.ledger| == |s.plan.effects| - 1
  {
    forall i | 0 <= i < |s.ledger| ensures s.plan.effects[i].ReadFile? {}
    NoWritesReplayToTheInitial(s.plan.effects, s.ledger, s.workspace.value.initial);
  }

  /** A write prepared after a denial leaves a sound state with the denial still last. */
  lemma PreparedAfterDenial(s: EvState, now: Time, later: Time, denied: bool)
    requires Sound(s) && LastDenied(s) && Enabled(s, PrepareWrite(now)) && later >= now
    requires ValidSuccessor(s, Next(s, PrepareWrite(now)))
    ensures var n := Next(s, PrepareWrite(now));
            Sound(n) && LastDenied(n) && Enabled(n, RecordReceipt(denied, later)) && Enabled(n, RecordReconciled(later))
  {
    hide ValidState, LedgerExplains, BuildPrepared;
    assert ValidState(Next(s, PrepareWrite(now)));
    hide ValidSuccessor;
    SameExplanation(s, Next(s, PrepareWrite(now)));
  }

  lemma SameExplanation(s: EvState, n: EvState)
    requires n.plan == s.plan && n.ledger == s.ledger && n.workspace == s.workspace
    ensures s.workspace.Some? ==> (LedgerExplains(n, n.workspace.value) <==> LedgerExplains(s, s.workspace.value))
  {
  }

  /** A denial does not stop the run: resumed after a crash, the controller prepares the next planned write
      and the broker may apply it, but no entry for it is ever accepted. */
  lemma WriteAfterADenialIsNeverRecorded(s: EvState, now: Time, later: Time, denied: bool)
    requires Sound(s) && s.phaseRevision >= 0 && LastDenied(s)
    requires Enabled(s, PrepareWrite(now)) && !Refused(s, PrepareWrite(now)) && later >= now
    ensures var n := Next(s, PrepareWrite(now));
            && ValidSuccessor(s, n)
            && Enabled(n, RecordReceipt(denied, later))
            && !ValidSuccessor(n, Next(n, RecordReceipt(denied, later)))
            && Enabled(n, RecordReconciled(later))
            && !ValidSuccessor(n, Next(n, RecordReconciled(later)))
  {
    hide Sound, Enabled, Next, ValidSuccessor;
    StoreAcceptsUnlessRefused(s, PrepareWrite(now));
    PreparedAfterDenial(s, now, later, denied);
    var n := Next(s, PrepareWrite(now));
    ReceiptAgrees(n, denied, later);
    ReconciledAgrees(n, later);
  }
}
