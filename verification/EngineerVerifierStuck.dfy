/** States from which no continuation, by any drivers, ever leaves the phase. Resuming is meant to carry every
    interrupted run to a terminal phase; EngineerVerifierEndings proves that, for a run nobody is working on,
    it fails to exactly in these states, when the lease is out of reach, and when the log has run ahead. */
module EngineerVerifierStuck {
  import opened Common
  import opened RuntimeTypes
  import opened EngineerVerifierKernel
  import opened EngineerVerifierCommands
  import opened EngineerVerifierRuns
  import opened EngineerVerifierOutbox
  import opened EngineerVerifierCalls

  predicate MidRun(w: World) {
    && Snapshots(w) && w.state.Some? && w.state.value.pending.None?
    && (w.state.value.phase.Engineering? || w.state.value.phase.Verifying?)
  }

  /** No driver that is up to date holds the lease. */
  predicate Unowned(w: World) { forall d :: d in w.drivers && Current(w, d) ==> !HoldsLease(w.drivers[d]) }

  /** Nothing that matters moved. */
  predicate Unmoved(w: World, v: World) {
    && w.state.Some? && v.state.Some?
    && v.state.value.phase == w.state.value.phase && v.state.value.ledger == w.state.value.ledger
  }

  lemma CommitPermits(w: World, d: DriverId, cmd: Command)
    requires CommitApplies(w, d, cmd)
    ensures Current(w, d) && w.state.Some? && Enabled(w.state.value, cmd)
    ensures Permitted(w.drivers[d], w.state.value, cmd)
    ensures var n := Next(w.state.value, cmd);
            && ValidSuccessor(w.state.value, n)
            && CommitStep(w, d, cmd)
               == Written(w, d, n, AfterWrite(w.drivers[d], w.revision + 1, n, cmd), NewEvents(w.state.value, n))
  {
    hide Next, ValidSuccessor, Permitted;
  }

  /** Without the lease, in the middle of a run, there is little to write. */
  lemma WithoutTheLease(driver: Driver, s: EvState, cmd: Command)
    requires Enabled(s, cmd) && Permitted(driver, s, cmd) && !driver.owns
    requires s.pending.None? && (s.phase.Engineering? || s.phase.Verifying?)
    ensures cmd.RequestCancellation? || cmd.Heartbeat? || cmd.ClaimRecovery?
  {
  }

  /** What the other actions leave: the state, and drivers as they were, told something, or newly loaded. */
  predicate QuietlyFollows(w: World, v: World) {
    && v.state == w.state && v.revision == w.revision
    && (forall d :: d in v.drivers ==>
          || v.drivers[d] == Driver(w.revision, w.state, false, Nothing)
          || (d in w.drivers && v.drivers[d] == w.drivers[d].(note := v.drivers[d].note)
              && (v.drivers[d].note == w.drivers[d].note
                  || (!v.drivers[d].note.SawDenial? && !v.drivers[d].note.SawReconciled? && !v.drivers[d].note.Fenced?)))
          || (CanRecover(w, d) && v.drivers[d] == w.drivers[d].(owns := true, note := Nothing)))
  }

  lemma OtherActionsFollowQuietly(w: World, a: Action)
    requires w.state.Some? && !a.Commit?
    ensures QuietlyFollows(w, Apply(w, a))
  {
    hide CommitStep, Claimed, ValidInitialInstall, FrozenMatches, ReadableLog, InspectRoot, NextEffect, NextIsWrite;
    hide RootFits, SameFence;
  }

  // ---------------------------------------------------------------- the lease is out of reach

  /** The first time a recovery could still name. */
  function Soonest(s: EvState): Time
    requires s.workspace.Some?
  {
    var w := s.workspace.value;
    var after := if s.time < w.heartbeatAt + 1 then w.heartbeatAt + 1 else s.time;
    if after < w.validFrom then w.validFrom else after
  }

  predicate InWindow(s: EvState) { s.workspace.Some? && Soonest(s) < s.workspace.value.validUntil }

  predicate LeaseIsGone(s: EvState) {
    s.workspace.Some? && (s.workspace.value.closed || s.workspace.value.cleanupRequired || !InWindow(s))
  }

  /** The workspace was closed or given up, or its lease ran out, and nobody holds it. */
  predicate Abandoned(w: World) { MidRun(w) && Unowned(w) && LeaseIsGone(w.state.value) }

  lemma LostLeaseAllowsOnlyCancellation(driver: Driver, s: EvState, cmd: Command)
    requires Enabled(s, cmd) && Permitted(driver, s, cmd) && !driver.owns
    requires s.pending.None? && (s.phase.Engineering? || s.phase.Verifying?) && LeaseIsGone(s)
    ensures cmd.RequestCancellation?
  {
    WithoutTheLease(driver, s, cmd);
    hide Permitted;
  }

  lemma CancellationRequestKeepsTheRest(s: EvState, cmd: Command)
    requires Enabled(s, cmd) && cmd.RequestCancellation?
    ensures var n := Next(s, cmd);
            && n == s.(cancellation := n.cancellation, time := n.time, digest := n.digest) && n.pending.None?
            && (LeaseIsGone(s) ==> LeaseIsGone(n))
  {
  }

  lemma ActionKeepsAbandoned(w: World, a: Action)
    requires Abandoned(w)
    ensures Abandoned(Apply(w, a)) && Unmoved(w, Apply(w, a))
  {
    hide CommitApplies, LeaseIsGone;
    if a.Commit? {
      if CommitApplies(w, a.d, a.cmd) {
        hide CommitStep, Next, Enabled, Permitted, ValidSuccessor;
        CommitPermits(w, a.d, a.cmd);
        LostLeaseAllowsOnlyCancellation(w.drivers[a.d], w.state.value, a.cmd);
        CancellationRequestKeepsTheRest(w.state.value, a.cmd);
      }
    } else {
      OtherActionsFollowQuietly(w, a);
      hide Apply;
    }
  }

  /** A crash between the write that closes the workspace and the write of the transition it prepares (or
      between the cleanup mark and the failure) leaves a run no resume can finish, and so does a lease that
      runs out: recovery is refused, and every transition needs the lease. */
  lemma {:induction false} CrashAfterCloseStrandsTheRun(w: World, actions: seq<Action>)
    requires Abandoned(w)
    ensures Abandoned(Run(w, actions)) && Unmoved(w, Run(w, actions))
    decreases |actions|
  {
    hide Apply, LeaseIsGone;
    if actions != [] {
      var front := actions[..|actions| - 1];
      CrashAfterCloseStrandsTheRun(w, front);
      ActionKeepsAbandoned(Run(w, front), actions[|actions| - 1]);
    }
  }

  // ---------------------------------------------------------------- the root is gone

  /** The root was removed in the middle of a run, and no driver that is up to date owns the lease. */
  predicate Rootless(w: World) {
    && MidRun(w) && (forall d :: d in w.drivers && Current(w, d) ==> !w.drivers[d].owns)
    && w.state.value.workspace.Some? && w.state.value.workspace.value.token !in w.roots
  }

  lemma LeaseWritesKeepTheRest(s: EvState, cmd: Command)
    requires Enabled(s, cmd) && (cmd.RequestCancellation? || cmd.Heartbeat? || cmd.ClaimRecovery?)
    ensures var n := Next(s, cmd);
            && n.phase == s.phase && n.ledger == s.ledger && n.pending == s.pending && n.workspace.Some? == s.workspace.Some?
            && (s.workspace.Some? ==> n.workspace.value.token == s.workspace.value.token)
  {
  }

  /** No root is opened or written under the name of one that is gone, and none is recovered. */
  lemma LostRootsStayLost(w: World, a: Action)
    requires Rootless(w) && !a.Commit?
    ensures var v := Apply(w, a);
            && v.state == w.state && v.revision == w.revision && w.state.value.workspace.value.token !in v.roots
            && forall d :: d in v.drivers && Current(v, d) ==> !v.drivers[d].owns
  {
    hide CommitStep, Claimed, ValidInitialInstall, FrozenMatches, ReadableLog, InspectRoot, NextEffect, NextIsWrite;
  }

  lemma ActionKeepsRootless(w: World, a: Action)
    requires Rootless(w)
    ensures Rootless(Apply(w, a)) && Unmoved(w, Apply(w, a))
  {
    hide CommitApplies;
    if a.Commit? {
      if CommitApplies(w, a.d, a.cmd) {
        hide CommitStep, Next, Enabled, Permitted, ValidSuccessor;
        CommitPermits(w, a.d, a.cmd);
        WithoutTheLease(w.drivers[a.d], w.state.value, a.cmd);
        LeaseWritesKeepTheRest(w.state.value, a.cmd);
      }
    } else {
      LostRootsStayLost(w, a);
      OtherActionsFollowQuietly(w, a);
      hide Apply;
    }
  }

  /** Closing a lease removes its root before it is recorded as closed. After a crash in between, the lease can
      be fenced again and again, but never recovered, and every transition needs the lease. */
  lemma {:induction false} ALostRootStrandsTheRun(w: World, actions: seq<Action>)
    requires Rootless(w)
    ensures Rootless(Run(w, actions)) && Unmoved(w, Run(w, actions))
    decreases |actions|
  {
    hide Apply;
    if actions != [] {
      var front := actions[..|actions| - 1];
      ALostRootStrandsTheRun(w, front);
      ActionKeepsRootless(Run(w, front), actions[|actions| - 1]);
    }
  }

  // ---------------------------------------------------------------- dead ends

  predicate AllResolved(s: EvState) {
    && s.phase.Engineering? && HasCompleted(s) && |s.ledger| == |s.plan.effects| && s.prepared.None?
    && (s.workspace.Some? ==> !s.workspace.value.cleanupRequired)
  }

  /** A cancellation that came after the last effect, or while the verifier runs. */
  predicate TooLate(s: EvState) {
    && s.cancellation.Some?
    && (AllResolved(s) || (s.phase.Verifying? && s.verifier.Some? && s.verifier.value.VerifierStarted?))
  }

  /** The last effect of the plan was denied. */
  predicate DeniedAtTheEnd(s: EvState) { AllResolved(s) && LastDenied(s) }

  predicate DeadEnd(s: EvState) { TooLate(s) || DeniedAtTheEnd(s) }

  /** And no owner just saw the denial, or reconciled the last write: only they go on from here. */
  predicate AtDeadEnd(w: World) {
    && MidRun(w) && DeadEnd(w.state.value)
    && (forall d :: d in w.drivers && Current(w, d) && w.drivers[d].owns ==>
          !w.drivers[d].note.SawDenial? && !w.drivers[d].note.SawReconciled?)
  }

  /** Sealing the workspace, or verifying a denied effect, is refused; the other ways on are for other states. */
  lemma DeadEndAllowsOnlyHousekeeping(driver: Driver, s: EvState, cmd: Command)
    requires Enabled(s, cmd) && Permitted(driver, s, cmd) && DeadEnd(s) && s.pending.None?
    requires !driver.note.SawDenial? && !driver.note.SawReconciled?
    requires ValidSuccessor(s, Next(s, cmd))
    ensures || cmd.CloseWorkspace? || cmd.Heartbeat? || cmd.ClaimRecovery? || (cmd.RecordResult? && s.phase.Engineering?)
            || cmd.RequestCancellation? || cmd.RecordReplay?
  {
    hide ValidSuccessor;
    if cmd.Transition? && cmd.trigger.EngineerCompleted? { DeniedEffectsAreNotVerified(s, cmd); }
  }

  /** The kernel verifies only complete effects. */
  lemma DeniedEffectsAreNotVerified(s: EvState, cmd: Command)
    requires Enabled(s, cmd) && cmd.Transition? && cmd.trigger.EngineerCompleted? && DeadEnd(s)
    ensures !ValidSuccessor(s, Next(s, cmd))
  {
    assert !EffectsComplete(Next(s, cmd));
    assert !ValidPhaseShape(Next(s, cmd));
  }

  lemma HousekeepingStaysAtTheEnd(s: EvState, cmd: Command)
    requires Enabled(s, cmd) && DeadEnd(s) && s.pending.None?
    requires || cmd.CloseWorkspace? || cmd.Heartbeat? || cmd.ClaimRecovery? || cmd.RecordResult?
             || cmd.RequestCancellation? || cmd.RecordReplay?
    ensures var n := Next(s, cmd);
            && DeadEnd(n) && n.phase == s.phase && n.ledger == s.ledger && n.pending.None?
            && (TooLate(s) ==> TooLate(n))
  {
  }

  lemma CommitKeepsDeadEnd(w: World, d: DriverId, cmd: Command)
    requires AtDeadEnd(w) && CommitApplies(w, d, cmd)
    ensures AtDeadEnd(CommitStep(w, d, cmd)) && Unmoved(w, CommitStep(w, d, cmd))
    ensures TooLate(w.state.value) ==> TooLate(CommitStep(w, d, cmd).state.value)
  {
    hide CommitApplies, CommitStep, Next, Enabled, Permitted, DeadEnd, ValidSuccessor, TooLate;
    CommitPermits(w, d, cmd);
    if w.drivers[d].owns { DeadEndAllowsOnlyHousekeeping(w.drivers[d], w.state.value, cmd); }
    else { WithoutTheLease(w.drivers[d], w.state.value, cmd); }
    HousekeepingStaysAtTheEnd(w.state.value, cmd);
  }

  lemma ActionKeepsDeadEnd(w: World, a: Action)
    requires AtDeadEnd(w)
    ensures AtDeadEnd(Apply(w, a)) && Unmoved(w, Apply(w, a))
    ensures TooLate(w.state.value) ==> TooLate(Apply(w, a).state.value)
  {
    hide CommitApplies, DeadEnd, TooLate;
    if a.Commit? {
      if CommitApplies(w, a.d, a.cmd) { CommitKeepsDeadEnd(w, a.d, a.cmd); }
    } else {
      OtherActionsFollowQuietly(w, a);
      hide Apply;
    }
  }

  /** A dead end is final: the run stays in its phase, with its ledger. */
  lemma {:induction false} DeadEndsAreFinal(w: World, actions: seq<Action>)
    requires AtDeadEnd(w)
    ensures AtDeadEnd(Run(w, actions)) && Unmoved(w, Run(w, actions))
    ensures TooLate(w.state.value) ==> TooLate(Run(w, actions).state.value)
    decreases |actions|
  {
    hide Apply, DeadEnd, TooLate;
    if actions != [] {
      var front := actions[..|actions| - 1];
      DeadEndsAreFinal(w, front);
      ActionKeepsDeadEnd(Run(w, front), actions[|actions| - 1]);
    }
  }

  predicate LateCancellation(w: World) { AtDeadEnd(w) && TooLate(w.state.value) }

  /** A cancellation accepted after the last effect was resolved, or while the verifier runs, is never
      carried out: the run stays in its phase for good. */
  lemma LateCancellationIsNeverCarriedOut(w: World, actions: seq<Action>)
    requires LateCancellation(w)
    ensures LateCancellation(Run(w, actions)) && Unmoved(w, Run(w, actions))
    ensures !Terminal(Run(w, actions).state.value.phase)
  {
    hide Run, DeadEnd, TooLate;
    DeadEndsAreFinal(w, actions);
  }

  predicate DeniedAndLeft(w: World) { AtDeadEnd(w) && DeniedAtTheEnd(w.state.value) }

  /** A crash between the record of a denied last effect and the failure it calls for leaves a run that goes
      on to verification and is refused there, for good. */
  lemma DeniedLastEffectStrandsTheRun(w: World, actions: seq<Action>)
    requires DeniedAndLeft(w)
    ensures Unmoved(w, Run(w, actions)) && Run(w, actions).state.value.phase.Engineering?
  {
    hide Run, LastDenied;
    DeadEndsAreFinal(w, actions);
  }

  // ---------------------------------------------------------------- a prepared write that cannot be settled

  predicate PreparedHeld(w: World, s: EvState) {
    && s.phase.Engineering? && s.prepared.Some? && HasCompleted(s) && NextIsWrite(s)
    && s.workspace.Some? && !s.workspace.value.closed && !s.workspace.value.cleanupRequired
    && s.prepared.value.before.files == s.workspace.value.current.files
    && s.workspace.value.token in w.roots
    && var files := w.roots[s.workspace.value.token];
       || (s.cancellation.Some? && files == s.prepared.value.before.files)
       || (LastDenied(s) && (files == s.prepared.value.before.files || files == s.prepared.value.after.files))
  }

  predicate OwnerIsNotTold(w: World, s: EvState, note: Note) {
    && !note.SawDenial?
    && (note.Inspected? ==> note.found.ExpectedBefore? || (note.found.IntendedAfter? && LastDenied(s)))
  }

  /** A prepared write that was cancelled before it was made, or that follows a denial. */
  predicate Held(w: World) {
    && MidRun(w) && PreparedHeld(w, w.state.value)
    && (forall d :: d in w.drivers && Current(w, d) && w.drivers[d].owns ==>
          OwnerIsNotTold(w, w.state.value, w.drivers[d].note))
  }

  predicate KeepsPrepared(cmd: Command) {
    cmd.Heartbeat? || cmd.ClaimRecovery? || cmd.RequestCancellation? || cmd.RecordResult?
  }

  lemma NoEntryFollowsADenial(s: EvState, n: EvState)
    requires LastDenied(s) && s.ledger < n.ledger
    ensures !ValidState(n)
  {
    assert n.ledger[|s.ledger| - 1] == s.ledger[|s.ledger| - 1];
    assert !ValidLedger(n.plan, n.attempt, n.ledger);
  }

  lemma GrowthGrows(s: EvState, cmd: Command)
    requires Enabled(s, cmd) && (cmd.RecordReceipt? || cmd.RecordReconciled?)
    ensures s.ledger < Next(s, cmd).ledger
  {
  }

  lemma KernelRules(s: EvState, n: EvState)
    requires ValidSuccessor(s, n) && s.pending.None?
    ensures ValidState(n) && ValidPhaseShape(n) && (n.attempt == s.attempt ==> ValidPreparedSuccessor(s, n))
  {
  }

  lemma HeldAllowsOnlyWaiting(w: World, s: EvState, driver: Driver, cmd: Command)
    requires PreparedHeld(w, s) && s.pending.None? && Enabled(s, cmd) && Permitted(driver, s, cmd)
    requires OwnerIsNotTold(w, s, driver.note)
    requires ValidSuccessor(s, Next(s, cmd))
    ensures KeepsPrepared(cmd)
  {
    hide ValidSuccessor, ValidState;
    KernelRules(s, Next(s, cmd));
    if cmd.RecordReceipt? || cmd.RecordReconciled? {
      GrowthGrows(s, cmd);
      if LastDenied(s) { NoEntryFollowsADenial(s, Next(s, cmd)); }
    }
  }

  lemma WaitingKeepsPrepared(w: World, s: EvState, cmd: Command)
    requires PreparedHeld(w, s) && s.pending.None? && Enabled(s, cmd) && KeepsPrepared(cmd)
    ensures var n := Next(s, cmd);
            && n.phase == s.phase && n.ledger == s.ledger && n.pending.None? && n.prepared == s.prepared
            && PreparedHeld(w, n) && LastDenied(n) == LastDenied(s)
  {
  }

  lemma CommitKeepsHeld(w: World, d: DriverId, cmd: Command)
    requires Held(w) && CommitApplies(w, d, cmd)
    ensures Held(CommitStep(w, d, cmd)) && Unmoved(w, CommitStep(w, d, cmd))
  {
    hide CommitApplies, CommitStep, Next, Enabled, Permitted, PreparedHeld, ValidSuccessor, LastDenied;
    CommitPermits(w, d, cmd);
    if w.drivers[d].owns { HeldAllowsOnlyWaiting(w, w.state.value, w.drivers[d], cmd); }
    else { WithoutTheLease(w.drivers[d], w.state.value, cmd); }
    WaitingKeepsPrepared(w, w.state.value, cmd);
    SameRootsHold(w, CommitStep(w, d, cmd), Next(w.state.value, cmd));
  }

  lemma SameRootsHold(w: World, v: World, s: EvState)
    requires w.roots == v.roots
    ensures PreparedHeld(w, s) == PreparedHeld(v, s)
  {
  }

  /** The broker does nothing for a cancelled run, no root is opened under an existing name, and an
      inspection finds what is there. */
  lemma OtherActionsHold(w: World, a: Action)
    requires Held(w) && !a.Commit? && SparesPrepared(w, a)
    ensures PreparedHeld(Apply(w, a), w.state.value)
    ensures forall d :: d in Apply(w, a).drivers && Current(Apply(w, a), d) && Apply(w, a).drivers[d].owns ==>
              OwnerIsNotTold(w, w.state.value, Apply(w, a).drivers[d].note)
  {
    hide CommitStep, Claimed, ValidInitialInstall, FrozenMatches, ReadableLog, NextEffect, NextIsWrite, LastDenied;
  }

  /** Nobody deletes the root of a prepared write. */
  predicate SparesPrepared(w: World, a: Action) {
    a.RemoveRoot? && w.state.Some? && w.state.value.prepared.Some? && w.state.value.workspace.Some? ==>
      a.token != w.state.value.workspace.value.token
  }

  lemma ActionKeepsHeld(w: World, a: Action)
    requires Held(w) && SparesPrepared(w, a)
    ensures Held(Apply(w, a)) && Unmoved(w, Apply(w, a))
  {
    hide CommitApplies, PreparedHeld, InstallApplies, ReconciledLog;
    if a.Commit? {
      if CommitApplies(w, a.d, a.cmd) { CommitKeepsHeld(w, a.d, a.cmd); }
    } else {
      OtherActionsFollowQuietly(w, a);
      OtherActionsHold(w, a);
      hide Apply;
    }
  }

  ghost predicate SparesAlways(w: World, actions: seq<Action>)
    decreases |actions|
  {
    actions != [] ==>
      && SparesAlways(w, actions[..|actions| - 1])
      && SparesPrepared(Run(w, actions[..|actions| - 1]), actions[|actions| - 1])
  }

  /** A cancellation that finds a prepared write not yet made asks the store to drop it, and a write prepared
      after a denial asks for a second entry; the store always refuses both, so as long as its root is left
      alone the run stays in Engineering. */
  lemma {:induction false} CancelledPreparedWriteIsStuck(w: World, actions: seq<Action>)
    requires Held(w) && SparesAlways(w, actions)
    ensures Held(Run(w, actions)) && Unmoved(w, Run(w, actions)) && Run(w, actions).state.value.phase.Engineering?
    decreases |actions|
  {
    hide Apply, NextIsWrite;
    if actions != [] {
      var front := actions[..|actions| - 1];
      CancelledPreparedWriteIsStuck(w, front);
      ActionKeepsHeld(Run(w, front), actions[|actions| - 1]);
    }
  }
}
