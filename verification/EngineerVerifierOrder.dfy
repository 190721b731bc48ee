/** What comes before what: over every run nothing is resolved before the executor completed, nothing is verified
    before it is sealed, and nothing follows a denial. */
module EngineerVerifierOrder {
  import opened Common
  import opened RuntimeTypes
  import opened EngineerVerifierKernel
  import opened EngineerVerifierCommands
  import opened EngineerVerifierRuns
  import opened EngineerVerifierOutbox
  import opened EngineerVerifierCalls
  import opened EngineerVerifierStuck

  predicate Orderly(s: EvState) {
    && s.workspace.Some?
    && (s.result.Some? ==> HasCompleted(s) && s.result.value == s.executor.outcome.result)
    && (s.phase.Engineering? ==>
          && (!HasCompleted(s) ==> s.ledger == [] && s.prepared.None? && s.verifier.None?)
          && (s.prepared.Some? ==> s.result.Some?)
          && (s.bridge.Some? <==> s.verifier.Some?)
          && (s.verifier.Some? ==> s.verifier.value.VerifierNotStarted? && |s.ledger| == |s.plan.effects|))
    && (s.phase.Verifying? ==> HasCompleted(s) && s.verifier.Some? && !s.verifier.value.Admitted?)
  }

  predicate OrderInv(w: World) { w.state.Some? ==> Orderly(w.state.value) }

  lemma NextKeepsOrder(s: EvState, cmd: Command)
    requires Enabled(s, cmd) && Orderly(s)
    ensures Orderly(Next(s, cmd))
  {
  }

  lemma ClaimedIsOrderly(plan: Plan, root: Lease, cursor: Option<Cursor>, now: Time)
    ensures Orderly(Claimed(plan, root, cursor, now))
  {
  }

  lemma ActionKeepsOrder(w: World, a: Action)
    requires OrderInv(w)
    ensures OrderInv(Apply(w, a))
  {
    match a
    case Install(d, plan, cursor, now) =>
      if InstallApplies(w, d, plan, cursor, now) { ClaimedIsOrderly(plan, w.drivers[d].note.root, cursor, now); }
      hide InstallApplies, Claimed, Orderly;
    case Commit(d, cmd) =>
      hide CommitApplies, Next, Enabled, ValidSuccessor, Orderly, CommitStep, Permitted;
      if CommitApplies(w, d, cmd) {
        CommitPermits(w, d, cmd);
        NextKeepsOrder(w.state.value, cmd);
      } else {
        assert CommitStep(w, d, cmd) == w by { RefusedCommitKeeps(w, d, cmd); }
      }
    case _ => OtherStepsKeepState(w, a); hide Apply;
  }

  lemma RefusedCommitKeeps(w: World, d: DriverId, cmd: Command)
    requires !CommitApplies(w, d, cmd)
    ensures CommitStep(w, d, cmd) == w
  {
    hide CommitApplies;
  }

  lemma {:induction false} EveryRunIsOrderly(base: seq<RunEvent>, actions: seq<Action>)
    ensures OrderInv(Run(Start(base), actions))
    decreases |actions|
  {
    hide Apply;
    if actions != [] {
      var front := actions[..|actions| - 1];
      EveryRunIsOrderly(base, front);
      hide OrderInv;
      ActionKeepsOrder(Run(Start(base), front), actions[|actions| - 1]);
    }
  }

  // ---------------------------------------------------------------- after a denial

  /** A denial is the last entry, in a phase a denied run can be in. */
  predicate DenialStands(s: EvState) {
    LastDenied(s) && (s.phase.Engineering? || s.phase.Failed? || s.phase.Cancelled?)
  }

  lemma DeniedStatesAreNotVerified(s: EvState)
    requires ValidState(s) && LastDenied(s)
    ensures DenialStands(s)
  {
    assert ValidPhaseShape(s);
  }

  lemma LedgerOfNext(s: EvState, cmd: Command)
    requires Enabled(s, cmd)
    ensures var n := Next(s, cmd);
            && (cmd.RecordReceipt? || cmd.RecordReconciled? ==> s.ledger < n.ledger && n.attempt == s.attempt)
            && (cmd.ClaimRetry? ==> s.ledger == [])
            && (!cmd.RecordReceipt? && !cmd.RecordReconciled? && !cmd.ClaimRetry? ==>
                  n.ledger == s.ledger && n.attempt == s.attempt)
  {
  }

  lemma WriteKeepsDenial(s: EvState, cmd: Command)
    requires DenialStands(s) && Enabled(s, cmd) && ValidSuccessor(s, Next(s, cmd))
    ensures var n := Next(s, cmd); DenialStands(n) && n.ledger == s.ledger && n.attempt == s.attempt
  {
    hide Next, Enabled, ValidState;
    var n := Next(s, cmd);
    assert ValidState(n);
    hide ValidSuccessor;
    LedgerOfNext(s, cmd);
    if s.ledger < n.ledger { NoEntryFollowsADenial(s, n); }
    else { DeniedStatesAreNotVerified(n); }
  }

  /** Nothing is ever recorded after a denial: the ledger stays as it is over every continuation, and the run
      is never verified, reviewed or retried. */
  lemma {:induction false} ADenialIsTheLastEntry(w: World, actions: seq<Action>)
    requires w.state.Some? && DenialStands(w.state.value)
    ensures var v := Run(w, actions);
            && v.state.Some? && DenialStands(v.state.value)
            && v.state.value.ledger == w.state.value.ledger && v.state.value.attempt == w.state.value.attempt
    decreases |actions|
  {
    hide DenialStands, Apply;
    if actions != [] {
      var front := actions[..|actions| - 1];
      ADenialIsTheLastEntry(w, front);
      ActionKeepsDenial(Run(w, front), actions[|actions| - 1]);
    }
  }

  lemma ActionKeepsDenial(w: World, a: Action)
    requires w.state.Some? && DenialStands(w.state.value)
    ensures var v := Apply(w, a);
            && v.state.Some? && DenialStands(v.state.value)
            && v.state.value.ledger == w.state.value.ledger && v.state.value.attempt == w.state.value.attempt
  {
    hide CommitApplies, DenialStands, Next, Enabled, ValidSuccessor, Permitted;
    if a.Commit? {
      if CommitApplies(w, a.d, a.cmd) {
        CommitPermits(w, a.d, a.cmd);
        WriteKeepsDenial(w.state.value, a.cmd);
      }
    } else {
      OtherActionsFollowQuietly(w, a);
      hide Apply;
    }
  }
}
