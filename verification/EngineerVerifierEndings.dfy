/** Which interrupted runs can be finished. For a run in the middle of Engineering or Verifying that no driver
    owns, exactly when some continuation carries it to an end, or carries a cancellation out, in terms of what
    anyone can read: the state record, the log's end and the workspace root. */
module EngineerVerifierEndings {
  import opened Common
  import opened RuntimeTypes
  import opened EngineerVerifierKernel
  import opened EngineerVerifierCommands
  import opened EngineerVerifierRuns
  import opened EngineerVerifierOutbox
  import opened EngineerVerifierCalls
  import opened EngineerVerifierEffects
  import opened EngineerVerifierAgreement
  import opened EngineerVerifierStuck
  import opened EngineerVerifierOrder
  import opened EngineerVerifierContinuations
  import Success = EngineerVerifierSuccess

  /** In the middle of a phase, and every driver that is up to date works without the lease. */
  predicate Unattended(w: World) {
    && w.state.Some? && w.state.value.pending.None? && (w.state.value.phase.Engineering? || w.state.value.phase.Verifying?)
    && Unowned(w)
  }

  /** The lease can be taken over: the workspace is neither closed nor given up, there is time left, the root is
      there, and the log ends where the state says. */
  predicate Recoverable(w: World)
    requires w.state.Some?
  {
    && !LeaseIsGone(w.state.value)
    && w.state.value.workspace.Some? && w.state.value.workspace.value.token in w.roots
    && CursorOf(w.log) == w.state.value.projected
  }

  /** A prepared write whose root is there, after a denial, or cancelled before it was made. */
  predicate HeldByItsRoot(w: World)
    requires w.state.Some?
  {
    var s := w.state.value;
    && s.prepared.Some? && s.workspace.Some? && s.workspace.value.token in w.roots
    && (LastDenied(s) || (s.cancellation.Some? && w.roots[s.workspace.value.token] == s.prepared.value.before.files))
  }

  /** Where a recorded cancellation is still carried out. */
  predicate Cancellable(w: World)
    requires w.state.Some?
  {
    var s := w.state.value;
    if s.phase.Verifying? then !(s.verifier.Some? && s.verifier.value.VerifierStarted?)
    else
      match s.executor
      case NotStarted => true
      case Started(_, _) => false
      case OutcomeRecorded(_, _, outcome, _) =>
        match outcome
        case ExecutorRetry(_, _) => true
        case ExecutorCancelled(_) => true
        case ExecutorFailed(_) => false
        case ExecutorTimedOut(_) => false
        case Completed(_) =>
          if s.prepared.None? then |s.ledger| < |s.plan.effects|
          else
            && !LastDenied(s) && s.workspace.Some? && s.workspace.value.token in w.roots
            && w.roots[s.workspace.value.token] == s.prepared.value.after.files
  }

  // ---------------------------------------------------------------- taking over

  function TakeOver(s: EvState): Command
    requires s.workspace.Some?
  {
    ClaimRecovery(s.workspace.value.instance + 1, Soonest(s))
  }

  lemma TakeOverPasses(s: EvState)
    requires s.workspace.Some? && !LeaseIsGone(s) && s.pending.None?
    ensures var cmd := TakeOver(s);
            && Enabled(s, cmd) && Next(s, cmd) != s && !Refused(s, cmd)
            && var n := Next(s, cmd);
               && n.workspace.Some? && n.pending.None?
               && n == s.(workspace := n.workspace, time := n.time, digest := n.digest)
               && n.workspace.value.token == s.workspace.value.token
               && n.workspace.value.current == s.workspace.value.current
               && !n.workspace.value.closed && !n.workspace.value.cleanupRequired
  {
  }

  /** A driver that was not there before loaded the state and wrote `n`, without the lease. */
  function Newcomer(w: World, n: EvState, note: Note): World {
    w.(revision := w.revision + 1, state := Some(n),
       drivers := w.drivers[D := Driver(w.revision + 1, Some(n), false, note)])
  }

  predicate NeedsNoLease(cmd: Command) { cmd.ClaimRecovery? || cmd.RequestCancellation? }

  lemma NewcomerApplies(w: World, s: EvState, cmd: Command)
    requires w.state == Some(s) && Enabled(s, cmd) && Next(s, cmd) != s && ValidSuccessor(s, Next(s, cmd)) && NeedsNoLease(cmd)
    requires Next(s, cmd).pending.None?
    ensures Apply(Apply(w, Load(D)), Commit(D, cmd)) == Newcomer(w, Next(s, cmd), NoteOf(cmd))
  {
    hide Enabled, Next, ValidSuccessor;
    var x := Apply(w, Load(D));
    assert CommitApplies(x, D, cmd);
    AppliedCommit(x, s, cmd);
    assert w.committed + [] == w.committed;
  }

  lemma NewcomerWrites(base: seq<RunEvent>, first: seq<Action>, cmd: Command)
    requires var w := Run(Start(base), first);
             && w.state.Some? && Enabled(w.state.value, cmd) && Next(w.state.value, cmd) != w.state.value
             && !Refused(w.state.value, cmd) && NeedsNoLease(cmd) && Next(w.state.value, cmd).pending.None?
             && (cmd.ClaimRecovery? ==> CursorOf(w.log) == w.state.value.projected)
    ensures var w := Run(Start(base), first);
            var steps := [Load(D), Commit(D, cmd)];
            && Run(Start(base), first + steps) == Newcomer(w, Next(w.state.value, cmd), NoteOf(cmd))
            && Run(w, steps) == Run(Start(base), first + steps) && HeedsAlways(w, steps)
  {
    hide Run, Refused, HeedsAlways, Enabled, Next, ValidSuccessor, Newcomer, Apply, Heeds;
    var w := Run(Start(base), first);
    LoadedAccepts(base, first, cmd);
    NewcomerApplies(w, w.state.value, cmd);
    NewcomerHeeds(w, cmd);
    Follows(w, Load(D), Commit(D, cmd));
    RunsCompose(Start(base), first, [Load(D), Commit(D, cmd)]);
  }

  lemma NewcomerHeeds(w: World, cmd: Command)
    requires w.state.Some? && NeedsNoLease(cmd)
    requires cmd.ClaimRecovery? ==> CursorOf(w.log) == w.state.value.projected
    ensures Heeds(w, Load(D)) && Heeds(Apply(w, Load(D)), Commit(D, cmd))
  {
  }

  lemma LoadedAccepts(base: seq<RunEvent>, first: seq<Action>, cmd: Command)
    requires var w := Run(Start(base), first);
             w.state.Some? && Enabled(w.state.value, cmd) && !Refused(w.state.value, cmd)
    ensures var s := Run(Start(base), first).state.value; ValidSuccessor(s, Next(s, cmd))
  {
    EveryRunAgrees(base, first, cmd);
  }

  /** Loading, fencing the previous owner, and recovering the root. */
  function Taking(s: EvState): seq<Action>
    requires s.workspace.Some?
  {
    [Load(D), Commit(D, TakeOver(s))] + [RecoverRoot(D)]
  }

  lemma TakesOver(base: seq<RunEvent>, first: seq<Action>)
    requires ReadableRun(base) && PhaseEvents(base) == []
    requires var w := Run(Start(base), first);
             && w.state.Some? && w.state.value.workspace.Some? && w.state.value.pending.None?
             && (w.state.value.phase.Engineering? || w.state.value.phase.Verifying?) && Recoverable(w)
    ensures var w := Run(Start(base), first);
            var s := w.state.value;
            var v := Run(Start(base), first + Taking(s));
            && Enabled(s, TakeOver(s)) && Attended(base, first + Taking(s), Next(s, TakeOver(s)), Nothing)
            && v.roots == w.roots && v == Run(w, Taking(s))
            && (CanFinish(v) ==> CanFinish(w)) && (CanBeCancelled(v) ==> CanBeCancelled(w))
            && HeedsAlways(w, Taking(s))
  {
    hide Run, Refused, Next, ReadableRun, PhaseEvents, LeaseIsGone, TakeOver, ValidState, Orderly, CanFinish, CanBeCancelled;
    var w := Run(Start(base), first);
    var s := w.state.value;
    Facts(base, first);
    TakeOverPasses(s);
    TakeOverClaims(s);
    var cmd := TakeOver(s);
    var n := Next(s, cmd);
    hide Enabled;
    NewcomerWrites(base, first, cmd);
    RootFitsAfter(w, s, n);
    hide HeedsAlways, StateExplained;
    var fenced := first + [Load(D), Commit(D, cmd)];
    NewcomerRecovers(w, n);
    hide RootFits;
    RunAppend(Start(base), fenced, RecoverRoot(D));
    RunAppend(w, [Load(D), Commit(D, cmd)], RecoverRoot(D));
    RecoveringHeeds(Run(w, [Load(D), Commit(D, cmd)]));
    assert fenced + [RecoverRoot(D)] == first + Taking(s);
    OwnerAttends(base, first + Taking(s), w, n);
    Before(w, Taking(s));
  }

  lemma RecoveringHeeds(w: World)
    ensures Heeds(w, RecoverRoot(D))
  {
  }

  /** The files of a root that is there are those a recovery accepts. */
  lemma RootFitsAfter(w: World, s: EvState, n: EvState)
    requires w.state == Some(s) && StateExplained(w.roots, s) && TakenOver(s, n) && s.workspace.value.token in w.roots
    requires !s.workspace.value.closed && n.workspace.value.current == s.workspace.value.current
    ensures RootFits(w.roots, n)
  {
    hide LedgerExplains;
  }

  lemma NewcomerRecovers(w: World, n: EvState)
    requires RootFits(w.roots, n) && n.workspace.Some? && !n.workspace.value.closed
    ensures Apply(Newcomer(w, n, Fenced), RecoverRoot(D)) == Owner(w, n)
  {
    hide RootFits;
  }

  function Owner(w: World, n: EvState): World {
    w.(revision := w.revision + 1, state := Some(n),
       drivers := w.drivers[D := Driver(w.revision + 1, Some(n), true, Nothing)])
  }

  lemma OwnerAttends(base: seq<RunEvent>, taken: seq<Action>, w: World, n: EvState)
    requires ReadableRun(base) && PhaseEvents(base) == [] && n.pending.None? && CursorOf(w.log) == n.projected
    requires Run(Start(base), taken) == Owner(w, n)
    ensures Attended(base, taken, n, Nothing)
  {
    hide Run, ReadableRun, PhaseEvents;
  }

  lemma TakeOverClaims(s: EvState)
    requires s.workspace.Some?
    ensures TakeOver(s).ClaimRecovery?
  {
  }

  lemma Follows(w: World, a: Action, b: Action)
    requires Heeds(w, a) && Heeds(Apply(w, a), b)
    ensures HeedsAlways(w, [a, b]) && Run(w, [a, b]) == Apply(Apply(w, a), b)
  {
    hide Heeds, Apply;
    OneHeeded(w, a);
    RunAppend(w, [a], b);
    assert [a] + [b] == [a, b];
  }

  // ---------------------------------------------------------------- what can be reached from there

  /** What taking over leaves of a state. */
  predicate TakenOver(s: EvState, n: EvState) {
    && s.workspace.Some? && n.workspace.Some?
    && n == s.(workspace := n.workspace, time := n.time, digest := n.digest)
    && n.workspace.value.token == s.workspace.value.token
    && !n.workspace.value.closed && !n.workspace.value.cleanupRequired
  }

  lemma CancellableIsCancelled(base: seq<RunEvent>, actions: seq<Action>, s: EvState, w: World)
    requires Attended(base, actions, s, Nothing) && s.cancellation.Some?
    requires w.state.Some? && TakenOver(w.state.value, s) && w.roots == Run(Start(base), actions).roots
    requires (s.phase.Engineering? || s.phase.Verifying?) && Cancellable(w)
    ensures CanBeCancelled(Run(Start(base), actions))
  {
    hide Run, ValidState;
    Facts(base, actions);
    if s.phase.Verifying? {
      hide Attended, StateExplained;
      match s.verifier.value {
        case VerifierNotStarted => FromNotVerified(base, actions, s, Nothing);
        case VerifierStarted(_) => assert false;
        case PublicationObserved(_, _, _) => FromObserved(base, actions, s, Nothing);
        case Admitted(_, _, _, _) => assert false;
      }
    } else if s.executor.NotStarted? {
      hide Attended, StateExplained;
      FromUncalled(base, actions, s, Nothing);
    } else {
      CancellableAfterCall(base, actions, s, w);
    }
  }

  lemma CancellableAfterCall(base: seq<RunEvent>, actions: seq<Action>, s: EvState, w: World)
    requires Attended(base, actions, s, Nothing) && s.phase.Engineering? && s.executor.OutcomeRecorded?
    requires s.cancellation.Some?
    requires w.state.Some? && TakenOver(w.state.value, s) && w.roots == Run(Start(base), actions).roots && Cancellable(w)
    ensures CanBeCancelled(Run(Start(base), actions))
  {
    hide Run, LastDenied;
    SameLedgerSameDenial(s, w.state.value);
    match s.executor.outcome
    case ExecutorRetry(_, _) => hide Attended; FromRetry(base, actions, s, Nothing);
    case ExecutorCancelled(_) => hide Attended; FromCancelledCall(base, actions, s, Nothing);
    case Completed(_) =>
      hide Attended;
      if s.prepared.None? { FromUnresolved(base, actions, s, Nothing); } else { FromMade(base, actions, s, Nothing); }
    case _ => assert false;
  }

  lemma LedgerFits(s: EvState)
    requires ValidState(s)
    ensures |s.ledger| <= |s.plan.effects|
  {
  }

  lemma SameLedgerSameDenial(s: EvState, n: EvState)
    requires s.ledger == n.ledger
    ensures LastDenied(s) == LastDenied(n)
  {
  }

  lemma RootIsEither(w: World, s: EvState)
    requires w.state == Some(s) && StateExplained(w.roots, s) && s.workspace.Some? && !s.workspace.value.closed
    requires s.prepared.Some? && s.prepared.value.before == s.workspace.value.current
    requires s.workspace.value.token in w.roots
    ensures var files := w.roots[s.workspace.value.token];
            files == s.prepared.value.before.files || files == s.prepared.value.after.files
  {
    hide LedgerExplains;
  }

  // ---------------------------------------------------------------- what cannot be reached

  /** The log has grown past the state's cursor. */
  predicate Overrun(w: World) {
    && MidRun(w) && Unowned(w) && w.state.value.projected.Some? && |w.log| > w.state.value.projected.value.sequence + 1
  }

  lemma OverrunHasNoCursor(w: World)
    requires OutboxInv(w) && w.state.Some? && w.state.value.projected.Some?
    requires |w.log| > w.state.value.projected.value.sequence + 1
    ensures CursorOf(w.log) != w.state.value.projected
  {
    LogEnd(w);
    hide OutboxInv;
  }

  /** A log that does not end at the cursor of a run at rest goes on after it. */
  lemma OtherEndIsOverrun(w: World)
    requires OutboxInv(w) && w.state.Some? && w.state.value.pending.None? && CursorOf(w.log) != w.state.value.projected
    ensures w.state.value.projected.Some? && |w.log| > w.state.value.projected.value.sequence + 1
  {
    var last := w.committed[|w.committed| - 1];
    assert w.state.value.projected == Some(Cursor(last.sequence, last.id));
    PhaseEventsAreInTheLog(w.log, last);
    var i :| 0 <= i < |w.log| && w.log[i] == last;
    assert LinkedAt(w.log, i);
    LogEnd(w);
    hide OutboxInv, PhaseEvents, Linked;
  }

  lemma ActionKeepsOverrun(w: World, a: Action)
    requires OutboxInv(w) && Overrun(w) && Heeds(w, a)
    ensures Overrun(Apply(w, a)) && Unmoved(w, Apply(w, a))
  {
    hide CommitApplies, OutboxInv, SparesPrepared;
    OverrunHasNoCursor(w);
    ActionOnlyAppends(w, a);
    if a.Commit? {
      CommitKeepsOverrun(w, a.d, a.cmd);
    } else {
      OtherActionsFollowQuietly(w, a);
      hide Apply, Heeds;
    }
  }

  lemma CommitKeepsOverrun(w: World, d: DriverId, cmd: Command)
    requires Overrun(w) && CursorOf(w.log) != w.state.value.projected
    requires Reconciles(cmd) ==> CursorOf(w.log) == w.state.value.projected
    ensures Overrun(CommitStep(w, d, cmd)) && Unmoved(w, CommitStep(w, d, cmd))
  {
    hide CommitApplies, Next, Enabled, Permitted, ValidSuccessor;
    if CommitApplies(w, d, cmd) {
      CommitPermits(w, d, cmd);
      WithoutTheLease(w.drivers[d], w.state.value, cmd);
      SmallWritesKeep(w.state.value, cmd);
    }
  }

  lemma SmallWritesKeep(s: EvState, cmd: Command)
    requires Enabled(s, cmd) && (cmd.RequestCancellation? || cmd.Heartbeat?)
    ensures var n := Next(s, cmd);
            n.phase == s.phase && n.ledger == s.ledger && n.pending == s.pending && n.projected == s.projected
  {
  }

  /** An event that got into the log in the middle of a run stops every resume. */
  lemma {:induction false} AStrayEventStopsTheRun(base: seq<RunEvent>, first: seq<Action>, later: seq<Action>)
    requires ReadableRun(base) && PhaseEvents(base) == []
    requires var w := Run(Start(base), first); Overrun(w) && HeedsAlways(w, later)
    ensures var w := Run(Start(base), first); Overrun(Run(w, later)) && Unmoved(w, Run(w, later))
    decreases |later|
  {
    hide Apply, Heeds, Overrun;
    var w := Run(Start(base), first);
    if later == [] { OverrunHasState(w); }
    else {
      var front := later[..|later| - 1];
      AStrayEventStopsTheRun(base, first, front);
      RunsCompose(Start(base), first, front);
      EveryRunKeepsOutbox(base, first + front);
      ActionKeepsOverrun(Run(w, front), later[|later| - 1]);
    }
  }

  lemma OverrunHasState(w: World)
    requires Overrun(w)
    ensures Unmoved(w, w)
  {
  }

  lemma {:induction false} HeedingSpares(w: World, actions: seq<Action>)
    requires HeedsAlways(w, actions)
    ensures SparesAlways(w, actions)
    decreases |actions|
  {
    hide Run, SparesPrepared;
    if actions != [] { HeedingSpares(w, actions[..|actions| - 1]); }
  }

  /** A held write is what the invariants of a run make of it. */
  lemma HeldByItsRootIsHeld(base: seq<RunEvent>, first: seq<Action>)
    requires var w := Run(Start(base), first);
             Unattended(w) && HeldByItsRoot(w) && !w.state.value.workspace.value.closed
             && !w.state.value.workspace.value.cleanupRequired
    ensures Held(Run(Start(base), first))
  {
    hide Run, ValidState, StateExplained, Orderly, NextIsWrite, LastDenied;
    var w := Run(Start(base), first);
    var s := w.state.value;
    Facts(base, first);
    assert s.phase.Engineering? by { PreparedIsEngineering(s); }
    PreparedFacts(s);
    RootIsEither(w, s);
  }

  lemma PreparedIsEngineering(s: EvState)
    requires ValidState(s) && s.prepared.Some? && (s.phase.Engineering? || s.phase.Verifying?)
    ensures s.phase.Engineering?
  {
  }

  /** The impossible half: out of reach, at a dead end, or held, a run never moves. */
  lemma UnfinishableNeverMoves(base: seq<RunEvent>, first: seq<Action>, later: seq<Action>)
    requires ReadableRun(base) && PhaseEvents(base) == []
    requires var w := Run(Start(base), first);
             && Unattended(w) && HeedsAlways(w, later)
             && (!Recoverable(w) || DeadEnd(w.state.value) || HeldByItsRoot(w))
    ensures var w := Run(Start(base), first); Unmoved(w, Run(w, later))
  {
    hide Run, ValidState, StateExplained, DeadEnd, HeldByItsRoot;
    var w := Run(Start(base), first);
    Facts(base, first);
    EveryRunKeepsOutbox(base, first);
    if LeaseIsGone(w.state.value) {
      hide LeaseIsGone, Orderly;
      CrashAfterCloseStrandsTheRun(w, later);
    } else if w.state.value.workspace.value.token !in w.roots {
      hide LeaseIsGone, Orderly;
      ALostRootStrandsTheRun(w, later);
    } else if !Recoverable(w) {
      OtherEndIsOverrun(w);
      hide LeaseIsGone, Orderly;
      AStrayEventStopsTheRun(base, first, later);
    } else if DeadEnd(w.state.value) {
      hide LeaseIsGone, Orderly;
      DeadEndsAreFinal(w, later);
    } else {
      assert !w.state.value.workspace.value.closed && !w.state.value.workspace.value.cleanupRequired;
      hide LeaseIsGone, Orderly;
      HeldByItsRootIsHeld(base, first);
      HeedingSpares(w, later);
      CancelledPreparedWriteIsStuck(w, later);
    }
  }

  /** Finishing, exactly: a run nobody is working on can be carried to an end if and only if its lease can be
      taken over, it is at no dead end, and no prepared write is held by its root. */
  lemma UnattendedRunIsFinishedIff(base: seq<RunEvent>, first: seq<Action>)
    requires ReadableRun(base) && PhaseEvents(base) == []
    requires Unattended(Run(Start(base), first))
    ensures var w := Run(Start(base), first);
            CanFinish(w) <==> Recoverable(w) && !DeadEnd(w.state.value) && !HeldByItsRoot(w)
  {
    var w := Run(Start(base), first);
    hide Run, HeedsAlways, Recoverable, DeadEnd, HeldByItsRoot;
    if Recoverable(w) && !DeadEnd(w.state.value) && !HeldByItsRoot(w) {
      FinishableIsFinished(base, first);
    } else if CanFinish(w) {
      var later :| HeedsAlways(w, later) && Finished(Run(w, later));
      UnfinishableNeverMoves(base, first, later);
      assert false;
    }
  }

  lemma FinishableIsFinished(base: seq<RunEvent>, first: seq<Action>)
    requires ReadableRun(base) && PhaseEvents(base) == []
    requires var w := Run(Start(base), first);
             Unattended(w) && Recoverable(w) && !DeadEnd(w.state.value) && !HeldByItsRoot(w)
    ensures CanFinish(Run(Start(base), first))
  {
    hide Run, StateExplained, ReadableRun, PhaseEvents, CanFinish, CanBeCancelled, Recoverable, ValidState, Orderly;
    var w := Run(Start(base), first);
    Facts(base, first);
    if w.state.value.cancellation.Some? && Cancellable(w) {
      CancellableRunIsCancelled(base, first);
      CancelledIsFinished(w);
    } else if w.state.value.cancellation.None? && AsksFirst(w) {
      hide DeadEnd, HeldByItsRoot;
      AskedRunIsCancelled(base, first);
      CancelledIsFinished(w);
    } else {
      hide Cancellable;
      FinishesAsItIs(base, first);
    }
  }

  /** Where asking for a cancellation is a way out. */
  predicate AsksFirst(w: World)
    requires w.state.Some?
  {
    var s := w.state.value;
    s.phase.Engineering? && Cancellable(w) && (s.executor.NotStarted? || HasCompleted(s))
  }

  /** A run that finishes without a cancellation, or fails in spite of one. */
  lemma FinishesAsItIs(base: seq<RunEvent>, first: seq<Action>)
    requires ReadableRun(base) && PhaseEvents(base) == []
    requires var w := Run(Start(base), first);
             && Unattended(w) && Recoverable(w) && !DeadEnd(w.state.value) && !HeldByItsRoot(w)
             && (w.state.value.cancellation.Some? ==> !Cancellable(w))
             && (w.state.value.cancellation.None? ==> !AsksFirst(w))
    ensures CanFinish(Run(Start(base), first))
  {
    hide Run, ReadableRun, PhaseEvents, Attended, CanFinish, CanBeCancelled, Refused, Next, Enabled;
    var w := Run(Start(base), first);
    var s := w.state.value;
    Facts(base, first);
    if s.prepared.Some? && s.workspace.value.token in w.roots && !s.workspace.value.closed {
      PreparedIsEngineering(s);
      PreparedFacts(s);
      RootIsEither(w, s);
    }
    hide StateExplained;
    WhatIsLeft(w, s);
    TakesOver(base, first);
    TakeOverPasses(s);
    hide TakeOver, Taking, Cancellable, ValidState, Orderly, LastDenied;
    hide DeadEnd, HeldByItsRoot, Recoverable, LeaseIsGone;
    var taken := first + Taking(s);
    var n := Next(s, TakeOver(s));
    SameLedgerSameDenial(s, n);
    if s.phase.Verifying? {
      match s.verifier.value {
        case VerifierNotStarted => FromNotVerified(base, taken, n, Nothing);
        case VerifierStarted(_) => FromStarted(base, taken, n, Nothing);
        case PublicationObserved(_, _, _) => FromObserved(base, taken, n, Nothing);
        case Admitted(_, _, _, _) => assert false;
      }
    } else if s.executor.Started? {
      FromOutstanding(base, taken, n, Nothing);
    } else if HasCompleted(s) {
      if s.prepared.None? { FromResolved(base, taken, n, Nothing); } else { FromPrepared(base, taken, n, Nothing); }
    } else {
      EndsTheAttempt(base, taken, n);
    }
  }

  lemma EndsTheAttempt(base: seq<RunEvent>, actions: seq<Action>, s: EvState)
    requires Attended(base, actions, s, Nothing) && Working(s) && s.executor.OutcomeRecorded? && !HasCompleted(s)
    ensures CanFinish(Run(Start(base), actions))
  {
    hide Attended, CanFinish, CanBeCancelled, Run;
    match s.executor.outcome
    case ExecutorRetry(_, _) => FromRetry(base, actions, s, Nothing);
    case ExecutorCancelled(_) =>
      FromCancelledCall(base, actions, s, Nothing);
      CancelledIsFinished(Run(Start(base), actions));
    case ExecutorFailed(_) => FromFailure(base, actions, s, Nothing);
    case ExecutorTimedOut(_) => FromFailure(base, actions, s, Nothing);
    case Completed(_) => assert false;
  }

  /** The cases left, by what the state and the root show. */
  lemma WhatIsLeft(w: World, s: EvState)
    requires w.state == Some(s) && ValidState(s) && Orderly(s) && (s.phase.Engineering? || s.phase.Verifying?)
    requires Recoverable(w) && !DeadEnd(s) && !HeldByItsRoot(w) && s.pending.None?
    requires s.cancellation.Some? ==> !Cancellable(w)
    requires s.cancellation.None? ==> !AsksFirst(w)
    requires s.prepared.Some? && s.workspace.Some? && s.workspace.value.token in w.roots ==>
               w.roots[s.workspace.value.token] == s.prepared.value.before.files
               || w.roots[s.workspace.value.token] == s.prepared.value.after.files
    ensures s.workspace.Some? && !s.workspace.value.closed && !s.workspace.value.cleanupRequired
    ensures s.phase.Verifying? ==>
              && s.verifier.Some? && !s.verifier.value.Admitted?
              && (s.verifier.value.VerifierStarted? ==> s.cancellation.None?)
    ensures s.phase.Engineering? ==> !s.executor.NotStarted?
    ensures s.phase.Engineering? && HasCompleted(s) ==>
              if s.prepared.None? then Resolved(s)
              else
                && !LastDenied(s) && s.cancellation.None? && s.workspace.value.token in w.roots
                && w.roots[s.workspace.value.token] == s.prepared.value.before.files
  {
    LedgerFits(s);
    hide ValidState;
  }

  // ---------------------------------------------------------------- asking for a cancellation

  function Ask(s: EvState): Command { RequestCancellation(1, s.time) }

  lemma AskPasses(s: EvState)
    requires s.pending.None? && s.cancellation.None? && !Terminal(s.phase)
    ensures var cmd := Ask(s);
            && Enabled(s, cmd) && Next(s, cmd) != s && !Refused(s, cmd) && cmd.RequestCancellation?
            && Next(s, cmd).pending.None? && Next(s, cmd).cancellation.Some?
            && Next(s, cmd) == s.(cancellation := Next(s, cmd).cancellation, digest := Next(s, cmd).digest)
  {
  }

  /** Anyone may ask; the run is then as unattended as it was, and otherwise unchanged. */
  lemma Asked(base: seq<RunEvent>, first: seq<Action>)
    requires var w := Run(Start(base), first); Unattended(w) && w.state.value.cancellation.None?
    ensures var w := Run(Start(base), first);
            var s := w.state.value;
            var asking := [Load(D), Commit(D, Ask(s))];
            var v := Run(Start(base), first + asking);
            && Enabled(s, Ask(s)) && Unattended(v) && v.state == Some(Next(s, Ask(s))) && v.roots == w.roots && v.log == w.log
            && v == Run(w, asking) && HeedsAlways(w, asking)
  {
    hide Refused, Enabled, Next, Ask, ValidState, StateExplained, Orderly, Run, HeedsAlways;
    var w := Run(Start(base), first);
    var s := w.state.value;
    var cmd := Ask(s);
    AskPasses(s);
    Facts(base, first);
    NewcomerWrites(base, first, cmd);
    NewcomerIsUnattended(w, Next(s, cmd));
  }

  lemma NewcomerIsUnattended(w: World, n: EvState)
    requires Snapshots(w) && n.pending.None? && (n.phase.Engineering? || n.phase.Verifying?)
    ensures Unattended(Newcomer(w, n, Nothing))
  {
  }

  lemma AskedRunIsCancelled(base: seq<RunEvent>, first: seq<Action>)
    requires ReadableRun(base) && PhaseEvents(base) == []
    requires var w := Run(Start(base), first);
             Unattended(w) && Recoverable(w) && w.state.value.cancellation.None? && Cancellable(w)
    ensures CanBeCancelled(Run(Start(base), first))
  {
    var w := Run(Start(base), first);
    var s := w.state.value;
    Asked(base, first);
    AskPasses(s);
    var asking := [Load(D), Commit(D, Ask(s))];
    var v := Run(Start(base), first + asking);
    hide Run, HeedsAlways, Enabled, Next, Refused, Ask, ReadableRun, PhaseEvents, LastDenied;
    SameLedgerSameDenial(s, v.state.value);
    assert Recoverable(v) && Cancellable(v);
    hide Recoverable, Cancellable, Unattended;
    CancellableRunIsCancelled(base, first + asking);
    Before(w, asking);
  }

  // ---------------------------------------------------------------- cancellations, exactly

  /** A root that is gone, or untouched under a cancellation. */
  predicate Untouched(w: World, s: EvState) {
    && s.workspace.Some? && !s.workspace.value.closed
    && (|| s.workspace.value.token !in w.roots
        || (&& s.cancellation.Some? && s.prepared.Some?
            && w.roots[s.workspace.value.token] == s.prepared.value.before.files))
  }

  /** Why a state in Engineering can still fail, but never be cancelled; `note` is what an owner was told. */
  predicate BeyondCancelling(w: World, s: EvState, note: Note) {
    match s.executor
    case NotStarted => false
    case Started(_, _) => CalmNote(note)
    case OutcomeRecorded(_, _, outcome, _) =>
      match outcome
      case ExecutorFailed(_) => true
      case ExecutorTimedOut(_) => true
      case Completed(_) =>
        if s.prepared.Some? then
          || LastDenied(s)
          || (Untouched(w, s) && note != Executed(false) && note != Inspected(IntendedAfter))
        else
          |s.ledger| == |s.plan.effects| && (LastDenied(s) || s.cancellation.Some?) && !note.SawReconciled?
      case _ => false
  }

  predicate NeverCancelled(w: World) {
    && Snapshots(w) && w.state.Some?
    && var s := w.state.value;
       || s.phase.Failed?
       || (&& s.phase.Engineering? && s.pending.None? && ValidState(s) && BeyondCancelling(w, s, Nothing)
           && (forall d :: d in w.drivers && Current(w, d) && w.drivers[d].owns ==>
                 BeyondCancelling(w, s, w.drivers[d].note)))
  }

  /** What a write may do to such a state: fail it, or leave it beyond cancelling. */
  predicate FailsOrStays(w: World, s: EvState, cmd: Command)
    requires Enabled(s, cmd)
  {
    var n := Next(s, cmd);
    || n.phase.Failed?
    || (&& n.phase.Engineering? && n.pending.None? && BeyondCancelling(w, n, NoteOf(cmd))
        && BeyondCancelling(w, n, Nothing))
  }

  lemma OutstandingStays(w: World, s: EvState, driver: Driver, cmd: Command)
    requires s.phase.Engineering? && s.pending.None? && s.executor.Started? && CalmNote(driver.note)
    requires Enabled(s, cmd) && Permitted(driver, s, cmd)
    ensures FailsOrStays(w, s, cmd)
  {
  }

  lemma FailureStays(w: World, s: EvState, driver: Driver, cmd: Command)
    requires s.phase.Engineering? && s.pending.None? && s.executor.OutcomeRecorded?
    requires s.executor.outcome.ExecutorFailed? || s.executor.outcome.ExecutorTimedOut?
    requires Enabled(s, cmd) && Permitted(driver, s, cmd)
    ensures FailsOrStays(w, s, cmd)
  {
  }

  /** What the kernel leaves to do about a prepared write. */
  lemma PreparedAllows(s: EvState, cmd: Command)
    requires s.phase.Engineering? && s.pending.None? && HasCompleted(s) && s.prepared.Some? && ValidState(s)
    requires Enabled(s, cmd) && ValidSuccessor(s, Next(s, cmd))
    ensures |s.ledger| + 1 == |s.plan.effects|
    ensures || KeepsPrepared(cmd) || cmd.MarkCleanup? || (cmd.Transition? && cmd.to.Failed?)
            || (!LastDenied(s) && (cmd.RecordReceipt? || cmd.RecordReconciled?))
  {
    hide ValidState;
    var n := Next(s, cmd);
    KernelRules(s, n);
    assert ValidPlan(s.plan);
    PreparedIsTheNextWrite(s);
    if cmd.RecordReceipt? || cmd.RecordReconciled? {
      GrowthGrows(s, cmd);
      if LastDenied(s) { NoEntryFollowsADenial(s, n); }
    }
    hide ValidSuccessor;
  }

  lemma PreparedStays(w: World, s: EvState, driver: Driver, cmd: Command)
    requires s.phase.Engineering? && s.pending.None? && HasCompleted(s) && s.prepared.Some? && ValidState(s)
    requires Enabled(s, cmd) && Permitted(driver, s, cmd) && ValidSuccessor(s, Next(s, cmd))
    requires BeyondCancelling(w, s, driver.note)
    ensures FailsOrStays(w, s, cmd)
  {
    hide ValidSuccessor, ValidState, NextEffect, Permitted, FailsOrStays;
    PreparedAllows(s, cmd);
    if cmd.RecordReceipt? || cmd.RecordReconciled? { RecordingStays(w, s, driver, cmd); }
    else { WaitingStays(w, s, driver, cmd); }
  }

  lemma RecordingStays(w: World, s: EvState, driver: Driver, cmd: Command)
    requires s.phase.Engineering? && HasCompleted(s) && s.prepared.Some? && |s.ledger| + 1 == |s.plan.effects|
    requires cmd.RecordReceipt? || cmd.RecordReconciled?
    requires Enabled(s, cmd) && Permitted(driver, s, cmd) && !LastDenied(s)
    requires BeyondCancelling(w, s, driver.note)
    ensures FailsOrStays(w, s, cmd)
  {
    hide NextEffect;
  }

  lemma WaitingStays(w: World, s: EvState, driver: Driver, cmd: Command)
    requires s.phase.Engineering? && s.pending.None? && HasCompleted(s) && s.prepared.Some?
    requires KeepsPrepared(cmd) || cmd.MarkCleanup? || (cmd.Transition? && cmd.to.Failed?)
    requires Enabled(s, cmd)
    requires BeyondCancelling(w, s, driver.note)
    ensures FailsOrStays(w, s, cmd)
  {
    hide NextEffect;
  }

  lemma ResolvedStays(w: World, s: EvState, driver: Driver, cmd: Command)
    requires s.phase.Engineering? && s.pending.None? && HasCompleted(s) && s.prepared.None?
    requires Enabled(s, cmd) && Permitted(driver, s, cmd) && ValidSuccessor(s, Next(s, cmd))
    requires BeyondCancelling(w, s, driver.note)
    ensures FailsOrStays(w, s, cmd)
  {
    if cmd.Transition? && cmd.trigger.EngineerCompleted? {
      assert ValidPhaseShape(Next(s, cmd));
      hide ValidSuccessor;
    } else {
      hide ValidSuccessor;
    }
  }

  lemma WriteStaysBeyond(w: World, s: EvState, driver: Driver, cmd: Command)
    requires s.phase.Engineering? && s.pending.None? && ValidState(s)
    requires Enabled(s, cmd) && Permitted(driver, s, cmd) && ValidSuccessor(s, Next(s, cmd))
    requires BeyondCancelling(w, s, driver.note)
    ensures FailsOrStays(w, s, cmd)
  {
    hide ValidSuccessor, ValidState, Enabled, Next, Permitted, FailsOrStays;
    if s.executor.Started? { OutstandingStays(w, s, driver, cmd); }
    else if !HasCompleted(s) { FailureStays(w, s, driver, cmd); }
    else if s.prepared.Some? { PreparedStays(w, s, driver, cmd); }
    else { ResolvedStays(w, s, driver, cmd); }
  }

  lemma RootsDecide(w: World, v: World, s: EvState, note: Note)
    requires w.roots == v.roots
    ensures BeyondCancelling(w, s, note) == BeyondCancelling(v, s, note)
  {
  }

  lemma CommitStaysBeyond(w: World, d: DriverId, cmd: Command)
    requires NeverCancelled(w) && CommitApplies(w, d, cmd)
    ensures NeverCancelled(CommitStep(w, d, cmd))
  {
    hide CommitApplies, CommitStep, Next, Enabled, Permitted, ValidSuccessor, BeyondCancelling, ValidState;
    CommitPermits(w, d, cmd);
    var s := w.state.value;
    var v := CommitStep(w, d, cmd);
    if s.phase.Failed? {
      EndedStays(s, Next(s, cmd));
    } else {
      if w.drivers[d].owns {
        WriteStaysBeyond(w, s, w.drivers[d], cmd);
      } else {
        WithoutTheLease(w.drivers[d], s, cmd);
        WriteStaysBeyond(w, s, Driver(0, None, true, Nothing), cmd) by { PermittedForAll(s, cmd); }
      }
      var n := Next(s, cmd);
      assert ValidState(n) by { KernelRules(s, n); }
      if !n.phase.Failed? {
        OwnerIsToldByItsWrite(w.drivers[d], w.revision + 1, n, cmd);
        RootsDecide(w, v, n, NoteOf(cmd));
        RootsDecide(w, v, n, Nothing);
      }
    }
  }

  lemma PermittedForAll(s: EvState, cmd: Command)
    requires cmd.RequestCancellation? || cmd.Heartbeat? || cmd.ClaimRecovery?
    ensures Permitted(Driver(0, None, true, Nothing), s, cmd)
  {
  }

  lemma EndedStays(s: EvState, n: EvState)
    requires ValidSuccessor(s, n) && Terminal(s.phase)
    ensures n.phase == s.phase
  {
  }

  lemma OwnerIsToldByItsWrite(driver: Driver, revision: int, n: EvState, cmd: Command)
    ensures AfterWrite(driver, revision, n, cmd).note == NoteOf(cmd)
  {
  }

  /** The other actions tell nothing that would help: the root of a cancelled write is not written to, and a
      root that is gone does not come back. */
  lemma OtherActionsStayBeyond(w: World, a: Action)
    requires NeverCancelled(w) && !a.Commit?
    ensures NeverCancelled(Apply(w, a))
  {
    hide Apply, BeyondCancelling, ValidState;
    var v := Apply(w, a);
    var s := w.state.value;
    OtherActionsFollowQuietly(w, a);
    if !s.phase.Failed? {
      OthersLeaveUntouched(w, a);
      forall d | d in v.drivers && Current(v, d) && v.drivers[d].owns
        ensures BeyondCancelling(v, s, v.drivers[d].note)
      {
        OthersTellNothing(w, a, d);
      }
      assert BeyondCancelling(v, s, Nothing) by { OthersLeaveBeyond(w, v, s, Nothing); }
    }
  }

  lemma OthersLeaveUntouched(w: World, a: Action)
    requires w.state.Some? && w.state.value.phase.Engineering? && !a.Commit?
    ensures Untouched(w, w.state.value) ==> Untouched(Apply(w, a), w.state.value)
  {
    hide CommitStep, Claimed, ValidInitialInstall, FrozenMatches, ReadableLog, InspectRoot, NextEffect, NextIsWrite;
  }

  lemma OthersLeaveBeyond(w: World, v: World, s: EvState, note: Note)
    requires Untouched(w, s) ==> Untouched(v, s)
    requires BeyondCancelling(w, s, note)
    ensures BeyondCancelling(v, s, note)
  {
    hide Untouched;
  }

  lemma OthersTellNothing(w: World, a: Action, d: DriverId)
    requires NeverCancelled(w) && w.state.value.phase.Engineering? && !a.Commit?
    requires var v := Apply(w, a); d in v.drivers && Current(v, d) && v.drivers[d].owns
    requires Untouched(w, w.state.value) ==> Untouched(Apply(w, a), w.state.value)
    ensures BeyondCancelling(Apply(w, a), w.state.value, Apply(w, a).drivers[d].note)
  {
    hide CommitStep, Claimed, ValidInitialInstall, FrozenMatches, ReadableLog, NextEffect, NextIsWrite, ValidState;
    hide LastDenied;
  }

  lemma {:induction false} NeverCancelledStays(w: World, later: seq<Action>)
    requires NeverCancelled(w)
    ensures NeverCancelled(Run(w, later))
    decreases |later|
  {
    hide Apply, NeverCancelled, CommitApplies, CommitStep;
    if later != [] {
      var front := later[..|later| - 1];
      NeverCancelledStays(w, front);
      ActionStaysBeyond(Run(w, front), later[|later| - 1]);
    }
  }

  lemma ActionStaysBeyond(w: World, a: Action)
    requires NeverCancelled(w)
    ensures NeverCancelled(Apply(w, a))
  {
    hide NeverCancelled, CommitApplies, ConfirmStep, ExecuteStep, ExecuteStaleStep, InstallStep, InspectRoot;
    if a.Commit? {
      if CommitApplies(w, a.d, a.cmd) { CommitStaysBeyond(w, a.d, a.cmd); }
    } else {
      OtherActionsStayBeyond(w, a);
    }
  }

  lemma UncancellableIsNeverCancelled(base: seq<RunEvent>, first: seq<Action>)
    requires var w := Run(Start(base), first);
             && Unattended(w) && Recoverable(w) && !Cancellable(w) && w.state.value.phase.Engineering?
             && w.state.value.cancellation.Some?
    ensures NeverCancelled(Run(Start(base), first))
  {
    hide Run, ValidState, StateExplained, LastDenied;
    var w := Run(Start(base), first);
    Facts(base, first);
    var s := w.state.value;
    LedgerFits(s);
    if s.prepared.Some? && s.workspace.value.token in w.roots && !s.workspace.value.closed {
      PreparedFacts(s);
      RootIsEither(w, s);
    }
  }

  /** Cancelling, exactly: the recorded cancellation of a run nobody is working on can be carried out if and
      only if its lease can be taken over and its phase still allows it. */
  lemma RecordedCancellationIsCarriedOutIff(base: seq<RunEvent>, first: seq<Action>)
    requires ReadableRun(base) && PhaseEvents(base) == []
    requires var w := Run(Start(base), first); Unattended(w) && w.state.value.cancellation.Some?
    ensures var w := Run(Start(base), first); CanBeCancelled(w) <==> Recoverable(w) && Cancellable(w)
  {
    var w := Run(Start(base), first);
    if Recoverable(w) && Cancellable(w) {
      CancellableRunIsCancelled(base, first);
    } else if CanBeCancelled(w) {
      var later :| HeedsAlways(w, later) && IsCancelled(Run(w, later));
      hide Run, HeedsAlways, Recoverable, DeadEnd, HeldByItsRoot, Cancellable;
      UncancellableStays(base, first, later);
      assert false;
    }
  }

  /** What a caller can check before asking: a cancellation asked for now can be carried out if and only if the
      lease can be taken over and the phase allows it. */
  lemma AskingNowIsCarriedOutIff(base: seq<RunEvent>, first: seq<Action>)
    requires ReadableRun(base) && PhaseEvents(base) == []
    requires var w := Run(Start(base), first); Unattended(w) && w.state.value.cancellation.None?
    ensures var w := Run(Start(base), first);
            var asked := Run(Start(base), first + [Load(D), Commit(D, Ask(w.state.value))]);
            && asked.state.Some? && asked.state.value.cancellation.Some?
            && (CanBeCancelled(asked) <==> Recoverable(w) && Cancellable(w))
  {
    var w := Run(Start(base), first);
    var s := w.state.value;
    Asked(base, first);
    AskPasses(s);
    var asking := [Load(D), Commit(D, Ask(s))];
    var v := Run(Start(base), first + asking);
    hide Run, HeedsAlways, Enabled, Next, Refused, Ask, ReadableRun, PhaseEvents, LastDenied;
    SameLedgerSameDenial(s, v.state.value);
    assert Recoverable(v) == Recoverable(w) && Cancellable(v) == Cancellable(w);
    hide Recoverable, Cancellable, Unattended, CanBeCancelled;
    RecordedCancellationIsCarriedOutIff(base, first + asking);
  }

  lemma UncancellableStays(base: seq<RunEvent>, first: seq<Action>, later: seq<Action>)
    requires ReadableRun(base) && PhaseEvents(base) == []
    requires var w := Run(Start(base), first);
             && Unattended(w) && w.state.value.cancellation.Some? && HeedsAlways(w, later)
             && (!Recoverable(w) || !Cancellable(w))
    ensures !IsCancelled(Run(Run(Start(base), first), later))
  {
    var w := Run(Start(base), first);
    hide Run, HeedsAlways, Recoverable, HeldByItsRoot;
    if !Recoverable(w) || w.state.value.phase.Verifying? {
      UnfinishableNeverMoves(base, first, later);
    } else {
      UncancellableIsNeverCancelled(base, first);
      NeverCancelledStays(w, later);
      hide BeyondCancelling, Cancellable;
    }
  }

  lemma CancellableRunIsCancelled(base: seq<RunEvent>, first: seq<Action>)
    requires ReadableRun(base) && PhaseEvents(base) == []
    requires var w := Run(Start(base), first);
             Unattended(w) && Recoverable(w) && Cancellable(w) && w.state.value.cancellation.Some?
    ensures CanBeCancelled(Run(Start(base), first))
  {
    hide Run, StateExplained, ReadableRun, PhaseEvents, ValidState, Attended, CanFinish, CanBeCancelled, TakeOver;
    hide Taking, Next, Enabled, Refused, Cancellable, Orderly;
    var w := Run(Start(base), first);
    var s := w.state.value;
    Facts(base, first);
    TakesOver(base, first);
    TakeOverPasses(s);
    CancellableIsCancelled(base, first + Taking(s), Next(s, TakeOver(s)), w);
  }

  // ---------------------------------------------------------------- recording a write that was made

  /** Some continuation records it: the ledger grows within the attempt. */
  ghost predicate CanBeRecorded(w: World) {
    w.state.Some? && exists later :: HeedsAlways(w, later) && Grew(w, Run(w, later))
  }

  predicate Grew(w: World, v: World) {
    && w.state.Some? && v.state.Some?
    && v.state.value.attempt == w.state.value.attempt && w.state.value.ledger < v.state.value.ledger
  }

  /** Recording, exactly: the prepared write that the broker made can be recorded if and only if the lease can
      be taken over and the entry before it is not a denial. A cancellation does not matter. */
  lemma MadeWriteIsRecordedIff(base: seq<RunEvent>, first: seq<Action>)
    requires ReadableRun(base) && PhaseEvents(base) == []
    requires var w := Run(Start(base), first);
             && Unattended(w) && w.state.value.prepared.Some? && w.state.value.workspace.Some?
             && w.state.value.workspace.value.token in w.roots
             && w.roots[w.state.value.workspace.value.token] == w.state.value.prepared.value.after.files
    ensures var w := Run(Start(base), first);
            CanBeRecorded(w) <==> Recoverable(w) && !LastDenied(w.state.value)
  {
    hide Run, HeedsAlways, Recoverable, StateExplained, Orderly;
    var w := Run(Start(base), first);
    Facts(base, first);
    if Recoverable(w) && !LastDenied(w.state.value) {
      MadeWriteIsRecorded(base, first);
    } else if CanBeRecorded(w) {
      var later :| HeedsAlways(w, later) && Grew(w, Run(w, later));
      if !Recoverable(w) {
        hide LastDenied, ValidState;
        UnfinishableNeverMoves(base, first, later);
      } else {
        DeniedStatesAreNotVerified(w.state.value);
        hide LastDenied, ValidState;
        ADenialIsTheLastEntry(w, later);
      }
      assert false;
    }
  }

  lemma MadeWriteIsRecorded(base: seq<RunEvent>, first: seq<Action>)
    requires ReadableRun(base) && PhaseEvents(base) == []
    requires var w := Run(Start(base), first);
             && Unattended(w) && w.state.value.prepared.Some? && w.state.value.workspace.Some?
             && w.state.value.workspace.value.token in w.roots
             && w.roots[w.state.value.workspace.value.token] == w.state.value.prepared.value.after.files
             && Recoverable(w) && !LastDenied(w.state.value)
    ensures CanBeRecorded(Run(Start(base), first))
  {
    hide Run, StateExplained, ReadableRun, PhaseEvents, Orderly, ValidState, Enabled, Next, Refused, TakeOver;
    hide Taking, CanFinish, CanBeCancelled, Attended, LastDenied;
    var w := Run(Start(base), first);
    var s := w.state.value;
    Facts(base, first);
    TakesOver(base, first);
    TakeOverPasses(s);
    PreparedIsEngineering(s);
    var take := Taking(s);
    var n := Next(s, TakeOver(s));
    SameLedgerSameDenial(s, n);
    var v := Run(Start(base), first + take);
    AttendedState(base, first + take, n, Nothing);
    RunsCompose(Start(base), first, take);
    RecordsWhatWasMade(base, first + take, n);
    RecordedAfter(w, take, v);
  }

  lemma RecordedAfter(w: World, more: seq<Action>, v: World)
    requires HeedsAlways(w, more) && v == Run(w, more) && CanBeRecorded(v)
    requires w.state.Some? && v.state.Some?
    requires v.state.value.attempt == w.state.value.attempt && v.state.value.ledger == w.state.value.ledger
    ensures CanBeRecorded(w)
  {
    hide Run, HeedsAlways;
    var later :| HeedsAlways(v, later) && Grew(v, Run(v, later));
    HeedsCompose(w, more, later);
    RunsCompose(w, more, later);
    assert Grew(w, Run(w, more + later));
  }

  lemma RecordsWhatWasMade(base: seq<RunEvent>, actions: seq<Action>, s: EvState)
    requires Attended(base, actions, s, Nothing) && Working(s) && s.prepared.Some? && !LastDenied(s)
    requires var w := Run(Start(base), actions);
             s.workspace.value.token in w.roots && w.roots[s.workspace.value.token] == s.prepared.value.after.files
    ensures CanBeRecorded(Run(Start(base), actions))
  {
    var w := Run(Start(base), actions);
    Facts(base, actions);
    PreparedFacts(s);
    Inspects(base, actions, s, Nothing);
    assert InspectRoot(w.roots, s.workspace.value, s.prepared.value) == IntendedAfter;
    hide ValidState, StateExplained, Orderly, LastDenied, ReadableRun, PhaseEvents, InspectRoot, NextIsWrite;
    assert s.pending.None? && w.state == Some(s);
    hide Run, Attended, HeedsAlways;
    var found := actions + [Inspect(D)];
    RunAppend(Start(base), actions, Inspect(D));
    OneHeeded(w, Inspect(D));
    AttendedState(base, found, s, Inspected(IntendedAfter));
    ReconcilingPasses(s);
    RecordsNow(base, found, s);
    RecordedAfter(w, [Inspect(D)], Run(Start(base), found));
  }

  lemma RecordsNow(base: seq<RunEvent>, actions: seq<Action>, s: EvState)
    requires Attended(base, actions, s, Inspected(IntendedAfter))
    requires Passes(s, Inspected(IntendedAfter), RecordReconciled(s.time))
    ensures CanBeRecorded(Run(Start(base), actions))
  {
    hide Run, Next, Enabled, Attended, HeedsAlways, Refused, Permitted;
    var w := Run(Start(base), actions);
    var cmd := RecordReconciled(s.time);
    CommitsTo(base, actions, s, Inspected(IntendedAfter), cmd);
    GrowthGrows(s, cmd);
    LedgerOfNext(s, cmd);
    assert Grew(w, Run(w, [Commit(D, cmd)]));
  }

  lemma AttendedState(base: seq<RunEvent>, actions: seq<Action>, s: EvState, note: Note)
    requires Attended(base, actions, s, note)
    ensures Run(Start(base), actions).state == Some(s)
  {
  }

  // ---------------------------------------------------------------- one resume

  /** A call that fits the run: a new instance at a time within the lease, the inputs of the seal if there was one,
      checks that pass, and an executor that answers as it must. */
  predicate Fitting(s: EvState, instance: Id, now: Time, g: Success.Given) {
    && s.workspace.Some? && s.workspace.value.instance != instance && s.time <= now
    && s.workspace.value.heartbeatAt < now && AuthorizesTime(s.workspace.value, now)
    && g.checks && Success.SealKept(s, g.inputs, g.chosen) && ValidOutcome(g.outcome, s.attempt, s.plan)
  }

  lemma RecoverableFits(w: World, s: EvState, instance: Id, now: Time, g: Success.Given)
    requires w.state == Some(s) && s.pending.None? && Success.Sure(s, w.roots) && Fitting(s, instance, now, g)
    ensures Recoverable(w)
       <==> && CursorOf(w.log) == s.projected
            && (s.replay.Some? ==> g.checks) && Enabled(s, ClaimRecovery(instance, now)) && RootFits(w.roots, s)
  {
    hide Success.SealKept, ValidOutcome, ValidState, Orderly;
  }

  /** What a denial leaves to a resume: only a cancellation, if one is recorded. */
  predicate Resumable(w: World, s: EvState)
    requires w.state == Some(s)
  {
    !DeadEnd(s) && !HeldByItsRoot(w) && !(LastDenied(s) && s.cancellation.None?)
  }

  lemma EffectsFit(w: World, s: EvState, g: Success.Given)
    requires w.state == Some(s) && s.pending.None? && s.phase.Engineering? && HasCompleted(s)
    requires Success.Sure(s, w.roots) && Recoverable(w) && g.checks && Success.SealKept(s, g.inputs, g.chosen)
    ensures Success.OutcomeSucceeds(s, s.executor.outcome, true, w.roots, g) <==> Resumable(w, s)
  {
    hide Success.Sure, ValidState, Orderly, Success.SealKept, NextIsWrite;
    Success.SureIsValid(s, w.roots);
    if s.prepared.Some? { PreparedFacts(s); }
  }

  lemma LeasedFits(w: World, s: EvState, g: Success.Given)
    requires w.state == Some(s) && s.pending.None? && (s.phase.Engineering? || s.phase.Verifying?)
    requires Success.Sure(s, w.roots) && Recoverable(w)
    requires g.checks && Success.SealKept(s, g.inputs, g.chosen) && ValidOutcome(g.outcome, s.attempt, s.plan)
    ensures Success.LeasedSucceeds(s, true, w.roots, g) <==> Resumable(w, s)
  {
    if s.phase.Engineering? && HasCompleted(s) {
      EffectsFit(w, s, g);
      hide Success.OutcomeSucceeds, Success.Sure, Recoverable, Resumable, ValidOutcome;
    } else if s.phase.Engineering? {
      Success.SureIsValid(s, w.roots);
      hide ValidState, Success.Sure, ValidOutcome, Success.SealKept;
    } else {
      VerifyingIsNotDenied(s, w.roots);
      hide Success.Sure, ValidOutcome, Success.SealKept, Success.OutcomeSucceeds;
    }
  }

  lemma VerifyingIsNotDenied(s: EvState, roots: Success.Roots)
    requires Success.Sure(s, roots) && s.phase.Verifying?
    ensures !LastDenied(s) && s.prepared.None? && HasCompleted(s) && s.verifier.Some? && !s.verifier.value.Admitted?
  {
  }

  /** A resume that fits finishes exactly the runs that can be finished, but for one whose last entry is a denial:
      there somebody must ask for a cancellation first. */
  lemma AFittingResumeFinishesIff(base: seq<RunEvent>, first: seq<Action>, instance: Id, now: Time, g: Success.Given)
    requires ReadableRun(base) && PhaseEvents(base) == []
    requires var w := Run(Start(base), first); Unattended(w) && Fitting(w.state.value, instance, now, g)
    ensures var w := Run(Start(base), first);
            var s := w.state.value;
            CursorOf(w.log) == s.projected && Success.Resumes(s, w.roots, instance, now, g)
            <==> CanFinish(w) && !(LastDenied(s) && s.cancellation.None?)
  {
    var w := Run(Start(base), first);
    var s := w.state.value;
    UnattendedRunIsFinishedIff(base, first);
    Success.EveryStateIsSure(base, first);
    hide Run, CanFinish, Recoverable, HeldByItsRoot, DeadEnd, Success.Sure, Success.Resumes, Fitting, Unowned;
    RecoverableFits(w, s, instance, now, g);
    if Recoverable(w) { LeasedFits(w, s, g) by { assert g.checks && Success.SealKept(s, g.inputs, g.chosen); } }
  }
}
