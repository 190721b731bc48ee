/** How a run nobody is working on can be carried on: another driver loads it, recovers its lease, and goes on
    from what it finds, as the controller would. */
module EngineerVerifierContinuations {
  import opened Common
  import opened WorkspaceFiles
  import opened RuntimeTypes
  import opened EngineerVerifierKernel
  import opened EngineerVerifierCommands
  import opened EngineerVerifierRuns
  import opened EngineerVerifierOutbox
  import opened EngineerVerifierCalls
  import opened EngineerVerifierEffects
  import opened EngineerVerifierAgreement
  import opened EngineerVerifierStuck
  import opened EngineerVerifierOrder
  import EngineerVerifierSuccess
  import EngineerVerifierLoop

  // ---------------------------------------------------------------- continuations the controller would take

  predicate Reconciles(cmd: Command) { cmd.ClaimRecovery? || cmd.ClaimRetry? || cmd.Transition? || cmd.Admit? }

  /** It spares the root of a prepared write, looks at the log before it recovers or moves, and asks for a
      cancellation only from outside: the driver at work would find its state written over. */
  predicate Heeds(w: World, a: Action) {
    && SparesPrepared(w, a)
    && (a.Commit? && a.cmd.RequestCancellation? ==> !(a.d in w.drivers && w.drivers[a.d].owns))
    && (a.Commit? && Reconciles(a.cmd) && w.state.Some? ==> CursorOf(w.log) == w.state.value.projected)
  }

  ghost predicate HeedsAlways(w: World, actions: seq<Action>)
    decreases |actions|
  {
    actions != [] ==>
      && HeedsAlways(w, actions[..|actions| - 1])
      && Heeds(Run(w, actions[..|actions| - 1]), actions[|actions| - 1])
  }

  lemma {:induction false} HeedsCompose(w: World, first: seq<Action>, later: seq<Action>)
    ensures HeedsAlways(w, first + later) <==> HeedsAlways(w, first) && HeedsAlways(Run(w, first), later)
    decreases |later|
  {
    hide Heeds, Run;
    if later == [] {
      assert first + later == first;
    } else {
      var front := later[..|later| - 1];
      HeedsCompose(w, first, front);
      RunsCompose(w, first, front);
      assert (first + later)[..|first + later| - 1] == first + front;
    }
  }

  predicate Finished(w: World) {
    w.state.Some? && (Terminal(w.state.value.phase) || w.state.value.phase.RetryPending?)
  }

  predicate IsCancelled(w: World) { w.state.Some? && w.state.value.phase.Cancelled? }

  ghost predicate CanFinish(w: World) { exists later :: HeedsAlways(w, later) && Finished(Run(w, later)) }

  ghost predicate CanBeCancelled(w: World) { exists later :: HeedsAlways(w, later) && IsCancelled(Run(w, later)) }

  /** What can be reached after some steps can be reached before them. */
  lemma Before(w: World, more: seq<Action>)
    requires HeedsAlways(w, more)
    ensures CanFinish(Run(w, more)) ==> CanFinish(w)
    ensures CanBeCancelled(Run(w, more)) ==> CanBeCancelled(w)
  {
    hide HeedsAlways, Run, Finished;
    if CanFinish(Run(w, more)) {
      var later :| HeedsAlways(Run(w, more), later) && Finished(Run(Run(w, more), later));
      HeedsCompose(w, more, later);
      RunsCompose(w, more, later);
      assert Finished(Run(w, more + later));
    }
    if CanBeCancelled(Run(w, more)) {
      var later :| HeedsAlways(Run(w, more), later) && IsCancelled(Run(Run(w, more), later));
      HeedsCompose(w, more, later);
      RunsCompose(w, more, later);
      assert IsCancelled(Run(w, more + later));
    }
  }

  lemma CancelledIsFinished(w: World)
    requires CanBeCancelled(w)
    ensures CanFinish(w)
  {
    hide HeedsAlways, Run;
    var later :| HeedsAlways(w, later) && IsCancelled(Run(w, later));
    assert Finished(Run(w, later));
  }

  // ---------------------------------------------------------------- one driver at work

  const D: DriverId := 0

  /** The driver owns the lease, holds the present state, and the log ends at its cursor. */
  ghost predicate Attended(base: seq<RunEvent>, actions: seq<Action>, s: EvState, note: Note) {
    var w := Run(Start(base), actions);
    && ReadableRun(base) && PhaseEvents(base) == []
    && w.state == Some(s) && D in w.drivers && w.drivers[D] == Driver(w.revision, Some(s), true, note)
    && s.pending.None? && CursorOf(w.log) == s.projected
  }

  /** The write is attempted, permitted, changes something and is not refused. */
  predicate Passes(s: EvState, note: Note, cmd: Command) {
    Enabled(s, cmd) && Permitted(Driver(0, None, true, note), s, cmd) && Next(s, cmd) != s && !Refused(s, cmd)
  }

  lemma RunAppend(w: World, actions: seq<Action>, a: Action)
    ensures Run(w, actions + [a]) == Apply(Run(w, actions), a)
    ensures HeedsAlways(w, actions) && Heeds(Run(w, actions), a) ==> HeedsAlways(w, actions + [a])
  {
    hide Apply, Heeds;
    assert (actions + [a])[..|actions|] == actions;
  }

  lemma OneHeeded(w: World, a: Action)
    requires Heeds(w, a)
    ensures HeedsAlways(w, [a]) && Run(w, [a]) == Apply(w, a)
  {
    hide Apply, Heeds;
    assert [a][..0] == [];
  }

  lemma OwnerCommits(base: seq<RunEvent>, actions: seq<Action>, s: EvState, note: Note, cmd: Command)
    requires Attended(base, actions, s, note) && Passes(s, note, cmd)
    ensures CommitApplies(Run(Start(base), actions), D, cmd) && Accepted(s, cmd)
  {
    hide Run, Enabled, Next, Refused, ValidSuccessor, PhaseEvents, ReadableRun;
    EveryRunAgrees(base, actions, cmd);
    var w := Run(Start(base), actions);
    assert Permitted(w.drivers[D], s, cmd);
  }

  lemma AppliedCommit(w: World, s: EvState, cmd: Command)
    requires CommitApplies(w, D, cmd) && w.state == Some(s)
    ensures Enabled(s, cmd)
    ensures var n := Next(s, cmd);
            Apply(w, Commit(D, cmd)) == Written(w, D, n, AfterWrite(w.drivers[D], w.revision + 1, n, cmd), NewEvents(s, n))
  {
    hide Next, Enabled, ValidSuccessor, Permitted, AfterWrite, NewEvents;
  }

  /** The commit of an owner at work. */
  lemma CommitsNow(base: seq<RunEvent>, actions: seq<Action>, s: EvState, note: Note, cmd: Command)
    requires Attended(base, actions, s, note) && Passes(s, note, cmd) && !cmd.RequestCancellation?
    ensures var w := Run(Start(base), actions);
            var n := Next(s, cmd);
            && CommitApplies(w, D, cmd) && Accepted(s, cmd)
            && Apply(w, Commit(D, cmd))
               == Written(w, D, n, AfterWrite(w.drivers[D], w.revision + 1, n, cmd), NewEvents(s, n))
            && HeedsAlways(w, [Commit(D, cmd)]) && Run(w, [Commit(D, cmd)]) == Apply(w, Commit(D, cmd))
            && Run(Start(base), actions + [Commit(D, cmd)]) == Apply(w, Commit(D, cmd))
  {
    hide *;
    AppliesNow(base, actions, s, note, cmd);
    var w := Run(Start(base), actions);
    RunAppend(Start(base), actions, Commit(D, cmd));
    OneHeeded(w, Commit(D, cmd));
  }

  lemma AppliesNow(base: seq<RunEvent>, actions: seq<Action>, s: EvState, note: Note, cmd: Command)
    requires Attended(base, actions, s, note) && Passes(s, note, cmd) && !cmd.RequestCancellation?
    ensures var w := Run(Start(base), actions);
            && CommitApplies(w, D, cmd) && Accepted(s, cmd) && Enabled(s, cmd) && D in w.drivers
            && Apply(w, Commit(D, cmd))
               == Written(w, D, Next(s, cmd), AfterWrite(w.drivers[D], w.revision + 1, Next(s, cmd), cmd),
                    NewEvents(s, Next(s, cmd)))
            && Heeds(w, Commit(D, cmd))
  {
    hide Run, Apply, CommitApplies, Accepted, Next, PhaseEvents, ReadableRun, AfterWrite, Refused, Permitted, NewEvents;
    OwnerCommits(base, actions, s, note, cmd);
    var w := Run(Start(base), actions);
    hide Passes, Enabled;
    AppliedCommit(w, s, cmd);
    AtCursorHeeds(w, cmd);
  }

  lemma AtCursorHeeds(w: World, cmd: Command)
    requires w.state.Some? && CursorOf(w.log) == w.state.value.projected && !cmd.RequestCancellation?
    ensures Heeds(w, Commit(D, cmd))
  {
  }

  lemma CommitsTo(base: seq<RunEvent>, actions: seq<Action>, s: EvState, note: Note, cmd: Command)
    requires Attended(base, actions, s, note) && Passes(s, note, cmd) && !cmd.RequestCancellation?
    ensures var w := Run(Start(base), actions);
            && w.state == Some(s)
            && HeedsAlways(w, [Commit(D, cmd)]) && Run(w, [Commit(D, cmd)]).state == Some(Next(s, cmd))
  {
    hide Run, Enabled, Next, Refused, ValidSuccessor, PhaseEvents, ReadableRun, CommitApplies, Permitted, HeedsAlways;
    CommitsNow(base, actions, s, note, cmd);
  }

  /** What the owner was told by its write. */
  function NoteOf(cmd: Command): Note {
    match cmd
    case StartExecutor(_) => MayInvoke
    case RecordReceipt(denied, _) => if denied then SawDenial else Nothing
    case RecordReconciled(_) => SawReconciled
    case ClaimRecovery(_, _) => Fenced
    case _ => Nothing
  }

  lemma Writes(base: seq<RunEvent>, actions: seq<Action>, s: EvState, note: Note, cmd: Command)
    requires Attended(base, actions, s, note) && Passes(s, note, cmd) && Next(s, cmd).pending.None?
    requires !cmd.RequestCancellation? && !cmd.ClaimRecovery?
    ensures var w, v := Run(Start(base), actions), Run(Start(base), actions + [Commit(D, cmd)]);
            && Attended(base, actions + [Commit(D, cmd)], Next(s, cmd), NoteOf(cmd)) && v.roots == w.roots
            && (CanFinish(v) ==> CanFinish(w)) && (CanBeCancelled(v) ==> CanBeCancelled(w))
  {
    hide Run, Enabled, Refused, PhaseEvents, ReadableRun, CommitApplies, Permitted, HeedsAlways, ValidSuccessor, Next;
    CommitsNow(base, actions, s, note, cmd);
    var w := Run(Start(base), actions);
    SuccessorMoves(s, Next(s, cmd));
    Before(w, [Commit(D, cmd)]);
  }

  /** A last transition. */
  lemma EndsBy(base: seq<RunEvent>, actions: seq<Action>, s: EvState, note: Note, cmd: Command)
    requires Attended(base, actions, s, note) && Passes(s, note, cmd) && !cmd.RequestCancellation?
    ensures var w := Run(Start(base), actions);
            && (Terminal(Next(s, cmd).phase) || Next(s, cmd).phase.RetryPending? ==> CanFinish(w))
            && (Next(s, cmd).phase.Cancelled? ==> CanBeCancelled(w))
  {
    hide Run, Enabled, Next, Refused, PhaseEvents, ReadableRun, Permitted, HeedsAlways;
    CommitsTo(base, actions, s, note, cmd);
    var w := Run(Start(base), actions);
    var v := Run(w, [Commit(D, cmd)]);
    if Terminal(Next(s, cmd).phase) || Next(s, cmd).phase.RetryPending? { assert Finished(v); }
    if Next(s, cmd).phase.Cancelled? { assert IsCancelled(v); }
  }

  /** The driver confirms the pending event of its own transition and finishes it. */
  lemma Delivered(base: seq<RunEvent>, actions: seq<Action>, w: World, n: EvState)
    requires w == Run(Start(base), actions) && w.state == Some(n) && n.pending.Some?
    requires D in w.drivers && w.drivers[D] == Driver(w.revision, Some(n), true, Nothing)
    requires ReconciledLog(n, w.log) == Some(w.log + [n.pending.value])
    requires n.pending.value.sequence == |w.log|
    requires ReadableRun(base) && PhaseEvents(base) == []
    ensures var more := [Confirm(D), Commit(D, ClearPending)];
            var v := Run(Start(base), actions + more);
            && Attended(base, actions + more, Cleared(n), Nothing) && v == Run(w, more) && v.roots == w.roots
            && HeedsAlways(w, more)
  {
    hide Run, Next, Enabled, Refused, ReconciledLog, ValidSuccessor, PhaseEvents, ReadableRun;
    var x := w.(log := w.log + [n.pending.value], drivers := w.drivers[D := w.drivers[D].(note := Confirmed)]);
    assert Apply(w, Confirm(D)) == x;
    RunAppend(Start(base), actions, Confirm(D));
    OneHeeded(w, Confirm(D));
    var confirmed := actions + [Confirm(D)];
    EngineerVerifierLoop.ClearSucceeds(n, x.drivers[D]);
    EngineerVerifierLoop.ClearIsCleared(n, x.drivers[D], w.revision + 1);
    EngineerVerifierLoop.SwapSucceeds(base, confirmed, x.drivers[D], ClearPending);
    ClearAddsNothing(n);
    hide Permitted, AfterWrite, NewEvents;
    assert CommitApplies(x, D, ClearPending);
    RunAppend(Start(base), confirmed, Commit(D, ClearPending));
    RunAppend(w, [Confirm(D)], Commit(D, ClearPending));
    assert confirmed + [Commit(D, ClearPending)] == actions + [Confirm(D), Commit(D, ClearPending)];
    assert [Confirm(D)] + [Commit(D, ClearPending)] == [Confirm(D), Commit(D, ClearPending)];
    assert Heeds(x, Commit(D, ClearPending));
  }

  lemma ClearAddsNothing(n: EvState)
    requires n.pending.Some?
    ensures NewEvents(n, Cleared(n)) == []
  {
  }

  /** A transition that is not the last, with its event delivered. */
  lemma Goes(base: seq<RunEvent>, actions: seq<Action>, s: EvState, note: Note, cmd: Command)
    requires Attended(base, actions, s, note) && Passes(s, note, cmd) && cmd.Transition?
    ensures var n := Next(s, cmd);
            var more := [Commit(D, cmd), Confirm(D), Commit(D, ClearPending)];
            var w, v := Run(Start(base), actions), Run(Start(base), actions + more);
            && n.pending.Some? && Attended(base, actions + more, Cleared(n), Nothing) && v.roots == w.roots
            && (CanFinish(v) ==> CanFinish(w)) && (CanBeCancelled(v) ==> CanBeCancelled(w))
  {
    var w := Run(Start(base), actions);
    var moved := actions + [Commit(D, cmd)];
    var n := Next(s, cmd);
    EventFollows(base, actions, s, note, cmd);
    var v := Run(Start(base), moved);
    Delivered(base, moved, v, n);
    hide Run, Enabled, Next, Refused, ValidSuccessor, PhaseEvents, ReadableRun, CommitApplies, Permitted, HeedsAlways, Attended;
    hide ReconciledLog, NewEvents, Passes;
    var rest := [Confirm(D), Commit(D, ClearPending)];
    assert moved + rest == actions + [Commit(D, cmd), Confirm(D), Commit(D, ClearPending)];
    Before(v, rest);
    Before(w, [Commit(D, cmd)]);
    RunsCompose(Start(base), moved, rest);
    RunsCompose(Start(base), actions, [Commit(D, cmd)]);
  }

  lemma EventFollows(base: seq<RunEvent>, actions: seq<Action>, s: EvState, note: Note, cmd: Command)
    requires Attended(base, actions, s, note) && Passes(s, note, cmd) && cmd.Transition?
    ensures var n := Next(s, cmd);
            var w, v := Run(Start(base), actions), Run(Start(base), actions + [Commit(D, cmd)]);
            && n.pending.Some? && v.state == Some(n) && v.roots == w.roots && v.log == w.log
            && D in v.drivers && v.drivers[D] == Driver(v.revision, Some(n), true, Nothing)
            && ReconciledLog(n, v.log) == Some(v.log + [n.pending.value])
            && n.pending.value.sequence == |v.log|
            && HeedsAlways(w, [Commit(D, cmd)])
            && ReadableRun(base) && PhaseEvents(base) == []
  {
    hide Run, Enabled, Next, Refused, ValidSuccessor, PhaseEvents, ReadableRun, CommitApplies, Permitted, HeedsAlways;
    hide ReconciledLog, FrozenMatches, OutboxInv, Accepted, Apply;
    CommitsNow(base, actions, s, note, cmd);
    var w := Run(Start(base), actions);
    var n := Next(s, cmd);
    EngineerVerifierLoop.MovesAttach(s, cmd, w.drivers[D], w.revision + 1);
    EngineerVerifierLoop.AcceptedEventIsFrozen(s, cmd);
    EventSequence(s, cmd);
    EveryRunKeepsOutbox(base, actions);
    EveryRunKeepsOutbox(base, actions + [Commit(D, cmd)]);
    EngineerVerifierLoop.NewEventIsAppended(w, Run(Start(base), actions + [Commit(D, cmd)]), n);
    LogEnd(w);
  }

  lemma EventSequence(s: EvState, cmd: Command)
    requires Enabled(s, cmd) && cmd.Transition?
    ensures Next(s, cmd).pending.Some?
    ensures Next(s, cmd).pending.value.sequence == if s.projected.None? then 0 else s.projected.value.sequence + 1
  {
  }

  lemma LogEnd(w: World)
    requires OutboxInv(w)
    ensures CursorOf(w.log).None? ==> |w.log| == 0
    ensures CursorOf(w.log).Some? ==> CursorOf(w.log).value.sequence == |w.log| - 1
  {
    if w.log != [] { assert LinkedAt(w.log, |w.log| - 1); }
  }

  // ---------------------------------------------------------------- what a run that is attended can come to

  lemma Facts(base: seq<RunEvent>, actions: seq<Action>)
    requires Run(Start(base), actions).state.Some?
    ensures var w := Run(Start(base), actions);
            ValidState(w.state.value) && Orderly(w.state.value) && StateExplained(w.roots, w.state.value) && Snapshots(w)
  {
    EveryRunKeepsEffects(base, actions);
    EveryRunIsOrderly(base, actions);
    hide Run, ValidState, StateExplained, Orderly;
  }

  /** Observed evidence is admitted, or cancelled. */
  lemma FromObserved(base: seq<RunEvent>, actions: seq<Action>, s: EvState, note: Note)
    requires Attended(base, actions, s, note)
    requires s.phase.Verifying? && s.verifier.Some? && s.verifier.value.PublicationObserved?
    ensures CanFinish(Run(Start(base), actions))
    ensures s.cancellation.Some? ==> CanBeCancelled(Run(Start(base), actions))
  {
    hide Run;
    assert s.pending.None?;
    hide Attended;
    if s.cancellation.None? {
      EndsBy(base, actions, s, note, Admit(s.time));
    } else {
      EndsBy(base, actions, s, note, Transition(Cancelled, CancellationAccepted, s.time));
    }
  }

  lemma FromStarted(base: seq<RunEvent>, actions: seq<Action>, s: EvState, note: Note)
    requires Attended(base, actions, s, note)
    requires s.phase.Verifying? && s.verifier.Some? && s.verifier.value.VerifierStarted? && s.cancellation.None?
    ensures CanFinish(Run(Start(base), actions))
  {
    hide Run;
    var cmd := Observe(0, 0, s.time);
    assert s.pending.None?;
    hide Attended;
    Writes(base, actions, s, note, cmd);
    FromObserved(base, actions + [Commit(D, cmd)], Next(s, cmd), Nothing);
  }

  /** Closing and then ending, where both pass. */
  lemma ClosesAndEnds(base: seq<RunEvent>, actions: seq<Action>, s: EvState, note: Note, to: Phase, trigger: Trigger)
    requires Attended(base, actions, s, note) && s.workspace.Some? && Passes(s, note, CloseWorkspace)
    requires Passes(ClosedState(s), Nothing, Transition(to, trigger, s.time))
    ensures Terminal(to) ==> CanFinish(Run(Start(base), actions))
    ensures to.Cancelled? ==> CanBeCancelled(Run(Start(base), actions))
  {
    hide Attended, Run, Refused, Permitted;
    assert s.pending.None?;
    Writes(base, actions, s, note, CloseWorkspace);
    assert Next(s, CloseWorkspace) == ClosedState(s);
    assert Next(ClosedState(s), Transition(to, trigger, s.time)).phase == to;
    EndsBy(base, actions + [Commit(D, CloseWorkspace)], ClosedState(s), Nothing, Transition(to, trigger, s.time));
  }

  lemma FromNotVerified(base: seq<RunEvent>, actions: seq<Action>, s: EvState, note: Note)
    requires Attended(base, actions, s, note)
    requires s.phase.Verifying? && s.verifier == Some(VerifierNotStarted)
    requires s.workspace.Some? && !s.workspace.value.closed
    ensures CanFinish(Run(Start(base), actions))
    ensures s.cancellation.Some? ==> CanBeCancelled(Run(Start(base), actions))
  {
    hide Run;
    assert s.pending.None?;
    hide Attended;
    if s.cancellation.None? {
      var cmd := StartVerifier(s.time);
      Writes(base, actions, s, note, cmd);
      FromStarted(base, actions + [Commit(D, cmd)], Next(s, cmd), Nothing);
    } else {
      ClosesAndEnds(base, actions, s, note, Cancelled, CancellationAccepted);
    }
  }

  // ---------------------------------------------------------------- from Engineering

  predicate Working(s: EvState) { s.phase.Engineering? && s.workspace.Some? && !s.workspace.value.closed }

  lemma FromUncalled(base: seq<RunEvent>, actions: seq<Action>, s: EvState, note: Note)
    requires Attended(base, actions, s, note) && Working(s) && s.executor.NotStarted? && s.cancellation.Some?
    ensures CanBeCancelled(Run(Start(base), actions))
  {
    assert s.pending.None?;
    Facts(base, actions);
    ClosingPasses(s, note, Cancelled, CancellationAccepted);
    hide Attended, Run, ValidState, StateExplained, Passes, Orderly, Next, Enabled;
    ClosesAndEnds(base, actions, s, note, Cancelled, CancellationAccepted);
  }

  lemma FromOutstanding(base: seq<RunEvent>, actions: seq<Action>, s: EvState, note: Note)
    requires Attended(base, actions, s, note) && Working(s) && s.executor.Started?
    ensures CanFinish(Run(Start(base), actions))
  {
    assert s.pending.None?;
    Facts(base, actions);
    ClosingPasses(s, note, Failed, ExecutorOutcomeUnknown);
    hide Attended, Run, ValidState, StateExplained, Passes, Orderly, Next, Enabled;
    ClosesAndEnds(base, actions, s, note, Failed, ExecutorOutcomeUnknown);
  }

  lemma FromFailure(base: seq<RunEvent>, actions: seq<Action>, s: EvState, note: Note)
    requires Attended(base, actions, s, note) && Working(s) && s.executor.OutcomeRecorded?
    requires s.executor.outcome.ExecutorFailed? || s.executor.outcome.ExecutorTimedOut?
    ensures CanFinish(Run(Start(base), actions))
  {
    assert s.pending.None?;
    Facts(base, actions);
    ClosingPasses(s, note, Failed, FailureRecorded);
    hide Attended, Run, ValidState, StateExplained, Passes, Orderly, Next, Enabled;
    ClosesAndEnds(base, actions, s, note, Failed, FailureRecorded);
  }

  lemma FromCancelledCall(base: seq<RunEvent>, actions: seq<Action>, s: EvState, note: Note)
    requires Attended(base, actions, s, note) && Working(s)
    requires s.executor.OutcomeRecorded? && s.executor.outcome.ExecutorCancelled?
    ensures CanBeCancelled(Run(Start(base), actions))
  {
    assert s.pending.None?;
    Facts(base, actions);
    ClosingPasses(s, note, Cancelled, CancellationAccepted);
    hide Attended, Run, ValidState, StateExplained, Passes, Orderly, Next, Enabled;
    ClosesAndEnds(base, actions, s, note, Cancelled, CancellationAccepted);
  }

  lemma FromRetry(base: seq<RunEvent>, actions: seq<Action>, s: EvState, note: Note)
    requires Attended(base, actions, s, note) && Working(s)
    requires s.executor.OutcomeRecorded? && s.executor.outcome.ExecutorRetry?
    ensures CanFinish(Run(Start(base), actions))
    ensures s.cancellation.Some? ==> CanBeCancelled(Run(Start(base), actions))
  {
    hide Run, ValidState, StateExplained, Passes, Orderly, Next, Enabled;
    assert s.pending.None?;
    Facts(base, actions);
    RetryPasses(s, note);
    hide Attended;
    var closed := actions + [Commit(D, CloseWorkspace)];
    var t := ClosedState(s);
    Writes(base, actions, s, note, CloseWorkspace);
    var cmd := Transition(RetryPending, RetryRequired, s.time);
    EndsBy(base, closed, t, Nothing, cmd);
    if s.cancellation.Some? {
      Goes(base, closed, t, Nothing, cmd);
      EndsBy(base, closed + [Commit(D, cmd), Confirm(D), Commit(D, ClearPending)], Cleared(Next(t, cmd)), Nothing,
        Transition(Cancelled, CancellationAccepted, s.time));
    }
  }

  lemma RetryPasses(s: EvState, note: Note)
    requires Working(s) && Orderly(s) && s.pending.None?
    requires s.executor.OutcomeRecorded? && s.executor.outcome.ExecutorRetry?
    ensures Passes(s, note, CloseWorkspace) && Next(s, CloseWorkspace) == ClosedState(s)
    ensures var t := ClosedState(s);
            var cmd := Transition(RetryPending, RetryRequired, s.time);
            && Passes(t, Nothing, cmd) && Next(t, cmd).pending.Some? && Next(t, cmd).phase.RetryPending?
            && (s.cancellation.Some? ==>
                  var n := Cleared(Next(t, cmd));
                  var last := Transition(Cancelled, CancellationAccepted, s.time);
                  Passes(n, Nothing, last) && Next(n, last).phase.Cancelled?)
  {
  }

  /** Closing and ending passes, for an attempt without effects. */
  lemma ClosingPasses(s: EvState, note: Note, to: Phase, trigger: Trigger)
    requires Working(s) && s.pending.None? && s.ledger == [] && s.prepared.None?
    requires s.cancellation.Some? || s.executor.Started? || RetryableOutcome(s.executor)
    requires TransitionReached(ClosedState(s), to, trigger) && !HasCompleted(s)
    requires !trigger.RetryRequired? && !trigger.EngineerCompleted?
    ensures Passes(s, note, CloseWorkspace) && Passes(ClosedState(s), Nothing, Transition(to, trigger, s.time))
  {
  }

  /** With an effect still to resolve, a cancellation is carried out at once. */
  lemma FromUnresolved(base: seq<RunEvent>, actions: seq<Action>, s: EvState, note: Note)
    requires Attended(base, actions, s, note) && Working(s) && HasCompleted(s) && s.cancellation.Some?
    requires s.prepared.None? && |s.ledger| < |s.plan.effects|
    ensures CanBeCancelled(Run(Start(base), actions))
  {
    hide Run;
    assert s.pending.None?;
    hide Attended;
    EndsBy(base, actions, s, note, Transition(Cancelled, CancellationAccepted, s.time));
  }

  /** Everything is resolved, nothing was denied, and nobody asked for a cancellation. */
  predicate Resolved(s: EvState) {
    && Working(s) && HasCompleted(s) && s.cancellation.None? && s.pending.None?
    && s.prepared.None? && |s.ledger| == |s.plan.effects| && !LastDenied(s)
  }

  lemma ResultPasses(s: EvState, note: Note)
    requires Resolved(s) && s.result.None?
    ensures var cmd := RecordResult(s.time);
            && Passes(s, note, cmd) && Resolved(Next(s, cmd))
            && Next(s, cmd).result.Some? && Next(s, cmd).verifier == s.verifier
  {
  }

  lemma ReplayPasses(s: EvState, note: Note)
    requires Resolved(s) && s.result.Some? && s.verifier.None? && ValidState(s) && Orderly(s)
    ensures var cmd := RecordReplay(0, 0, s.time);
            && Passes(s, note, cmd) && Resolved(Next(s, cmd))
            && Next(s, cmd).result == s.result && Next(s, cmd).verifier.Some?
  {
    assert s.replay.None?;
    hide ValidState, BridgeOf;
  }

  lemma VerifyPasses(s: EvState, note: Note)
    requires Resolved(s) && s.result.Some? && s.verifier.Some? && ValidState(s) && Orderly(s)
    ensures var cmd := Transition(Verifying, EngineerCompleted, s.time);
            && Passes(s, note, cmd) && Next(s, cmd).pending.Some?
            && var n := Cleared(Next(s, cmd));
               (n.phase.Verifying? && n.verifier == Some(VerifierNotStarted) && n.workspace.Some? && !n.workspace.value.closed)
  {
    hide ValidState, EffectsComplete, CompletedResult;
    EngineerVerifierSuccess.CompleteAfterAll(s);
  }

  /** With everything resolved, the verifier is next. */
  lemma FromResolved(base: seq<RunEvent>, actions: seq<Action>, s: EvState, note: Note)
    requires Attended(base, actions, s, note) && Resolved(s)
    ensures CanFinish(Run(Start(base), actions))
    decreases s.result.None?, s.verifier.None?
  {
    Facts(base, actions);
    hide Attended, Run, StateExplained, Passes, Orderly, ValidState, Next, Enabled;
    if s.result.None? {
      ResultPasses(s, note);
      var cmd := RecordResult(s.time);
      Writes(base, actions, s, note, cmd);
      FromResolved(base, actions + [Commit(D, cmd)], Next(s, cmd), Nothing);
    } else if s.verifier.None? {
      ReplayPasses(s, note);
      var cmd := RecordReplay(0, 0, s.time);
      Writes(base, actions, s, note, cmd);
      FromResolved(base, actions + [Commit(D, cmd)], Next(s, cmd), Nothing);
    } else {
      VerifyPasses(s, note);
      var cmd := Transition(Verifying, EngineerCompleted, s.time);
      Goes(base, actions, s, note, cmd);
      FromNotVerified(base, actions + [Commit(D, cmd), Confirm(D), Commit(D, ClearPending)], Cleared(Next(s, cmd)), Nothing);
    }
  }

  // ---------------------------------------------------------------- from a prepared write

  lemma Inspects(base: seq<RunEvent>, actions: seq<Action>, s: EvState, note: Note)
    requires Attended(base, actions, s, note) && Working(s) && s.prepared.Some?
    ensures var w, v := Run(Start(base), actions), Run(Start(base), actions + [Inspect(D)]);
            && Attended(base, actions + [Inspect(D)], s, Inspected(InspectRoot(w.roots, s.workspace.value, s.prepared.value)))
            && v.roots == w.roots
            && (CanFinish(v) ==> CanFinish(w)) && (CanBeCancelled(v) ==> CanBeCancelled(w))
  {
    var w := Run(Start(base), actions);
    hide Run, ReadableRun, PhaseEvents, HeedsAlways, InspectRoot;
    RunAppend(Start(base), actions, Inspect(D));
    OneHeeded(w, Inspect(D));
    Before(w, [Inspect(D)]);
  }

  lemma Executes(base: seq<RunEvent>, actions: seq<Action>, s: EvState, note: Note)
    requires Attended(base, actions, s, note) && Working(s) && s.prepared.Some? && NextIsWrite(s) && s.cancellation.None?
    requires var w := Run(Start(base), actions);
             s.workspace.value.token in w.roots && w.roots[s.workspace.value.token] == s.workspace.value.current.files
    ensures var w, v := Run(Start(base), actions), Run(Start(base), actions + [Execute(D, false)]);
            && Attended(base, actions + [Execute(D, false)], s, Executed(false))
            && (CanFinish(v) ==> CanFinish(w)) && (CanBeCancelled(v) ==> CanBeCancelled(w))
  {
    var w := Run(Start(base), actions);
    hide Run, ReadableRun, PhaseEvents, HeedsAlways;
    assert BrokerAllows(w, D, false);
    RunAppend(Start(base), actions, Execute(D, false));
    OneHeeded(w, Execute(D, false));
    Before(w, [Execute(D, false)]);
  }

  lemma PreparedFacts(s: EvState)
    requires ValidState(s) && Orderly(s) && s.phase.Engineering? && s.prepared.Some?
    ensures HasCompleted(s) && NextIsWrite(s) && |s.ledger| + 1 == |s.plan.effects| && s.workspace.Some?
    ensures s.prepared.value.before == s.workspace.value.current
    ensures s.prepared.value.before.files != s.prepared.value.after.files
  {
    EngineerVerifierSuccess.PreparedIsLast(s);
    assert ValidPrepared(s.prepared.value);
    WriteKeepsListAndOtherPaths(s.prepared.value.before.files, s.prepared.value.file, s.prepared.value.file.path);
    hide ValidState;
  }

  /** A write found made is recorded, and then a cancellation is carried out. */
  lemma FromMade(base: seq<RunEvent>, actions: seq<Action>, s: EvState, note: Note)
    requires Attended(base, actions, s, note) && Working(s) && s.prepared.Some? && !LastDenied(s) && s.cancellation.Some?
    requires var w := Run(Start(base), actions);
             s.workspace.value.token in w.roots && w.roots[s.workspace.value.token] == s.prepared.value.after.files
    ensures CanBeCancelled(Run(Start(base), actions))
  {
    hide Run, ValidState, StateExplained, Orderly, Passes, Next, Enabled, NextIsWrite, LastDenied, Attended;
    MadeIsFound(base, actions, s, note);
    ReconcilingPasses(s);
    var found := actions + [Inspect(D)];
    var cmd := RecordReconciled(s.time);
    Writes(base, found, s, Inspected(IntendedAfter), cmd);
    EndsBy(base, found + [Commit(D, cmd)], Next(s, cmd), SawReconciled, Transition(Cancelled, CancellationAccepted, s.time));
  }

  lemma MadeIsFound(base: seq<RunEvent>, actions: seq<Action>, s: EvState, note: Note)
    requires Attended(base, actions, s, note) && Working(s) && s.prepared.Some?
    requires var w := Run(Start(base), actions);
             s.workspace.value.token in w.roots && w.roots[s.workspace.value.token] == s.prepared.value.after.files
    ensures var w, v := Run(Start(base), actions), Run(Start(base), actions + [Inspect(D)]);
            && Attended(base, actions + [Inspect(D)], s, Inspected(IntendedAfter))
            && (CanBeCancelled(v) ==> CanBeCancelled(w))
    ensures s.pending.None? && HasCompleted(s) && NextIsWrite(s) && |s.ledger| + 1 == |s.plan.effects|
  {
    hide Run, ValidState, StateExplained, Orderly, NextIsWrite, CanBeCancelled, CanFinish, ReadableRun, PhaseEvents;
    Facts(base, actions);
    PreparedFacts(s);
    Inspects(base, actions, s, note);
  }

  lemma ReconcilingPasses(s: EvState)
    requires Working(s) && s.prepared.Some? && !LastDenied(s) && s.pending.None?
    requires HasCompleted(s) && NextIsWrite(s) && |s.ledger| + 1 == |s.plan.effects|
    ensures var cmd := RecordReconciled(s.time);
            && Passes(s, Inspected(IntendedAfter), cmd) && Next(s, cmd).pending.None?
            && (s.cancellation.Some? ==>
                  && Passes(Next(s, cmd), SawReconciled, Transition(Cancelled, CancellationAccepted, s.time))
                  && Next(Next(s, cmd), Transition(Cancelled, CancellationAccepted, s.time)).phase.Cancelled?)
  {
  }

  lemma FromPrepared(base: seq<RunEvent>, actions: seq<Action>, s: EvState, note: Note)
    requires Attended(base, actions, s, note) && Working(s) && s.prepared.Some? && !LastDenied(s) && s.cancellation.None?
    requires var w := Run(Start(base), actions);
             s.workspace.value.token in w.roots && w.roots[s.workspace.value.token] == s.prepared.value.before.files
    ensures CanFinish(Run(Start(base), actions))
  {
    hide Run, ValidState, StateExplained, Orderly, Passes, Next, Enabled, Resolved;
    Facts(base, actions);
    PreparedFacts(s);
    assert s.pending.None?;
    Executes(base, actions, s, note);
    ReceiptPasses(s);
    hide Attended;
    var made := actions + [Execute(D, false)];
    var cmd := RecordReceipt(false, s.time);
    Writes(base, made, s, Executed(false), cmd);
    FromResolved(base, made + [Commit(D, cmd)], Next(s, cmd), Nothing);
  }

  lemma ReceiptPasses(s: EvState)
    requires Working(s) && s.prepared.Some? && !LastDenied(s) && s.pending.None? && s.cancellation.None?
    requires HasCompleted(s) && NextIsWrite(s) && |s.ledger| + 1 == |s.plan.effects|
    ensures var cmd := RecordReceipt(false, s.time);
            Passes(s, Executed(false), cmd) && Next(s, cmd).pending.None? && Resolved(Next(s, cmd))
  {
  }
}
