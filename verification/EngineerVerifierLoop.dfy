/** The controller itself, one driver working on the durable cell, the log and the workspace roots. Every
    method is proved to be a run of the step system, so what holds after every run holds at every point a
    crash can stop it; on top of that each method says what it leaves behind, and exactly when it succeeds. The
    clock, the executor, the verifier and the broker's refusals are arbitrary. */
module EngineerVerifierLoop {
  import opened Common
  import opened WorkspaceFiles
  import opened RuntimeTypes
  import opened EngineerVerifierKernel
  import opened EngineerVerifierCommands
  import opened EngineerVerifierRuns
  import opened EngineerVerifierOutbox
  import opened EngineerVerifierAgreement
  import opened EngineerVerifierOrder
  import opened EngineerVerifierSuccess

  const ME: DriverId := 0

  lemma RunAppend(w: World, actions: seq<Action>, a: Action)
    ensures Run(w, actions + [a]) == Apply(Run(w, actions), a)
  {
    hide Apply;
    assert (actions + [a])[..|actions|] == actions;
  }

  /** The world of one driver. */
  function Alone(revision: int, state: Option<EvState>, log: seq<RunEvent>, roots: map<Id, seq<File>>,
                 driver: Driver, committed: seq<RunEvent>, invocations: seq<int>): World {
    World(revision, state, log, roots, map[ME := driver], committed, invocations)
  }

  /** When its compare-and-swap finds what it loaded, and the store accepts the state it proposes. */
  predicate Swaps(revision: int, state: Option<EvState>, driver: Driver, cmd: Command) {
    && driver.revision == revision && driver.state == state && state.Some?
    && Permitted(driver, state.value, cmd) && Accepted(state.value, cmd)
  }

  /** In a run the store accepts exactly what is not refused. */
  lemma SwapSucceeds(base: seq<RunEvent>, actions: seq<Action>, driver: Driver, cmd: Command)
    requires Run(Start(base), actions).state.Some?
    ensures var w := Run(Start(base), actions);
            Swaps(w.revision, w.state, driver, cmd)
            <==> && driver.revision == w.revision && driver.state == w.state
                 && Succeeds(driver, w.state.value, cmd)
  {
    hide Run, Enabled, Next, ValidSuccessor, Refused, Permitted;
    var w := Run(Start(base), actions);
    if Enabled(w.state.value, cmd) { EveryRunAgrees(base, actions, cmd); }
  }

  lemma NothingToSwap(revision: int, state: Option<EvState>, driver: Driver, cmd: Command)
    requires state.None?
    ensures !Swaps(revision, state, driver, cmd)
  {
  }

  /** The transition is in the state and its event, alone, is new in the log. */
  predicate HasMoved(
      s: EvState, logBefore: seq<RunEvent>, after: Option<EvState>, log: seq<RunEvent>, to: Phase, trigger: Trigger,
      now: Time)
  {
    var moved := Moved(s, to, trigger, now);
    moved.pending.Some? && after == Some(Cleared(moved)) && log == logBefore + [moved.pending.value]
  }

  lemma SwapIsACommit(w: World, driver: Driver, cmd: Command)
    requires w.drivers == map[ME := driver]
    ensures CommitApplies(w, ME, cmd) <==> Swaps(w.revision, w.state, driver, cmd)
    ensures Swaps(w.revision, w.state, driver, cmd) ==> w.state.Some? && Enabled(w.state.value, cmd)
    ensures Swaps(w.revision, w.state, driver, cmd) ==>
              var n := Next(w.state.value, cmd);
              Apply(w, Commit(ME, cmd))
              == Alone(w.revision + 1, Some(n), w.log, w.roots, AfterWrite(driver, w.revision + 1, n, cmd),
                   w.committed + NewEvents(w.state.value, n), w.invocations)
    ensures !Swaps(w.revision, w.state, driver, cmd) ==> Apply(w, Commit(ME, cmd)) == w
  {
    hide Permitted, Enabled, Next, ValidSuccessor, AfterWrite;
  }

  lemma ConfirmIsReconciled(w: World, driver: Driver)
    requires w.drivers == map[ME := driver] && driver.state.Some? && driver.state.value.pending.Some?
    ensures var after := ReconciledLog(driver.state.value, w.log);
            Apply(w, Confirm(ME))
            == if after.Some? then Alone(w.revision, w.state, after.value, w.roots, driver.(note := Confirmed),
                                         w.committed, w.invocations)
               else w
  {
    hide ReconciledLog;
  }

  /** A pending event is unlogged, or the last of the log; where the cursor still fits it can be appended. */
  lemma PendingCanBeReconciled(w: World, s: EvState)
    requires OutboxInv(w) && w.state == Some(s) && s.pending.Some?
    ensures FrozenMatches(s, s.pending.value) ==>
              ReconciledLog(s, w.log)
              == if PhaseEvents(w.log) == w.committed then
                   (if w.log[|w.log| - 1] == s.pending.value then Some(w.log) else None)
                 else if CursorOf(w.log) == s.projected then Some(w.log + [s.pending.value])
                 else None
  {
    PendingIsInTheLogIffDelivered(w);
    assert ReadableLog(w.log);
    hide OutboxInv, FrozenMatches, ReadableLog, Linked, PhaseEvents;
  }

  /** The event of an accepted transition says what the state says. */
  lemma AcceptedEventIsFrozen(s: EvState, cmd: Command)
    requires Accepted(s, cmd) && s.pending.None?
    ensures var n := Next(s, cmd); n.pending.Some? ==> FrozenMatches(n, n.pending.value)
  {
    hide Next, Enabled;
    var n := Next(s, cmd);
    if n.pending.Some? {
      PendingTransitionIsAPhaseEvent(s.phase, n);
      assert ValidPending(n.pending.value);
    }
    hide ValidState, ValidSameAttemptSuccessor, ValidRetrySuccessor, ValidPhaseEvent, ValidPendingTransition;
  }

  lemma ClaimedEventIsFrozen(n: EvState)
    requires ValidInitialInstall(n) && n.pending.Some?
    ensures FrozenMatches(n, n.pending.value)
  {
    PendingTransitionIsAPhaseEvent(Planned, n);
    assert ValidPending(n.pending.value);
    hide ValidState, ValidPhaseEvent;
  }

  /** Right after a transition is written its event is missing from the log, so reconciling appends it. */
  lemma NewEventIsAppended(before: World, after: World, n: EvState)
    requires OutboxInv(before) && before.state.Some? && before.state.value.pending.None?
    requires OutboxInv(after) && after.state == Some(n) && n.pending.Some? && after.log == before.log
    requires after.committed == before.committed + [n.pending.value]
    requires FrozenMatches(n, n.pending.value) && CursorOf(after.log) == n.projected
    ensures ReconciledLog(n, after.log) == Some(before.log + [n.pending.value])
  {
    assert PhaseEvents(before.log) == before.committed;
    hide FrozenMatches;
    PendingCanBeReconciled(after, n);
  }

  lemma CallSteps(w: World, driver: Driver, outcome: Outcome)
    requires w.drivers == map[ME := driver] && driver.state.Some?
    ensures driver.note.MayInvoke? ==>
              Apply(w, Invoke(ME))
              == Alone(w.revision, w.state, w.log, w.roots, driver.(note := Calling), w.committed,
                   w.invocations + [driver.state.value.attempt])
    ensures driver.note.Calling? ==>
              Apply(w, Return(ME, outcome))
              == Alone(w.revision, w.state, w.log, w.roots, driver.(note := Answered(outcome)), w.committed,
                   w.invocations)
  {
  }

  predicate MayInspect(revision: int, state: Option<EvState>, driver: Driver) {
    && driver.revision == revision && driver.state == state && driver.owns && state.Some?
    && state.value.phase.Engineering? && state.value.prepared.Some? && state.value.workspace.Some?
  }

  lemma InspectStep(w: World, driver: Driver)
    requires w.drivers == map[ME := driver] && MayInspect(w.revision, w.state, driver)
    ensures var found := InspectRoot(w.roots, w.state.value.workspace.value, w.state.value.prepared.value);
            Apply(w, Inspect(ME))
            == Alone(w.revision, w.state, w.log, w.roots, driver.(note := Inspected(found)), w.committed, w.invocations)
  {
  }

  /** When the broker answers with a receipt, and not an error. */
  predicate Answers(revision: int, state: Option<EvState>, roots: map<Id, seq<File>>, driver: Driver, denied: bool) {
    && driver.revision == revision && driver.state == state && driver.owns && state.Some?
    && var s := state.value;
       (&& s.pending.None? && Operable(s) && s.cancellation.None? && NextEffect(s)
        && (NextIsWrite(s) <==> s.prepared.Some?)
        && (s.workspace.value.token in roots ==> roots[s.workspace.value.token] == s.workspace.value.current.files)
        && (denied || s.workspace.value.token in roots))
  }

  lemma ExecuteIsAnswered(w: World, driver: Driver, denied: bool)
    requires w.drivers == map[ME := driver]
    ensures Answers(w.revision, w.state, w.roots, driver, denied) ==>
              && w.state.Some? && w.state.value.workspace.Some?
              && Apply(w, Execute(ME, denied))
                 == Alone(w.revision, w.state, w.log,
                      if denied || w.state.value.prepared.None? then w.roots
                      else w.roots[w.state.value.workspace.value.token := w.state.value.prepared.value.after.files],
                      driver.(note := Executed(denied)), w.committed, w.invocations)
    ensures Answers(w.revision, w.state, w.roots, driver, denied) ==> denied || RootIsThere(w.state.value, w.roots)
    ensures !Answers(w.revision, w.state, w.roots, driver, denied) ==> Apply(w, Execute(ME, denied)) == w
  {
    hide NextEffect, NextIsWrite;
  }

  predicate MayOpen(revision: int, state: Option<EvState>, roots: map<Id, seq<File>>, driver: Driver, root: Lease) {
    && driver.revision == revision && driver.state == state && root.token !in roots
    && (state.None? || (state.value.phase.RetryPending? && Closed(state.value)))
  }

  lemma OpenStep(w: World, driver: Driver, root: Lease)
    requires w.drivers == map[ME := driver]
    ensures Apply(w, OpenRoot(ME, root))
         == if MayOpen(w.revision, w.state, w.roots, driver, root) then
              Alone(w.revision, w.state, w.log, w.roots[root.token := root.files], driver.(note := Opened(root)),
                w.committed, w.invocations)
            else w
  {
  }

  /** The first install: refused when a state exists, when the planned write would change nothing, or when
      the claimed state is not valid. */
  predicate Installs(revision: int, state: Option<EvState>, driver: Driver, plan: Plan, cursor: Option<Cursor>, now: Time) {
    && driver.revision == revision && driver.state == state && state.None? && driver.note.Opened?
    && !TargetMatches(plan, driver.note.root.files)
    && ValidInitialInstall(Claimed(plan, driver.note.root, cursor, now))
  }

  lemma LogEndIsSeen(log: seq<RunEvent>)
    requires Linked(log)
    ensures SeenCursor(log, CursorOf(log))
  {
    if log != [] { assert LinkedAt(log, |log| - 1); }
  }

  lemma InstallIsAClaim(w: World, driver: Driver, plan: Plan, cursor: Option<Cursor>, now: Time)
    requires w.drivers == map[ME := driver] && SeenCursor(w.log, cursor)
    ensures Installs(w.revision, w.state, driver, plan, cursor, now) ==>
              var n := Claimed(plan, driver.note.root, cursor, now);
              && n.pending.Some?
              && Apply(w, Install(ME, plan, cursor, now))
                 == Alone(w.revision + 1, Some(n), w.log, w.roots, Driver(w.revision + 1, Some(n), true, Nothing),
                      w.committed + [n.pending.value], w.invocations)
    ensures !Installs(w.revision, w.state, driver, plan, cursor, now) ==> Apply(w, Install(ME, plan, cursor, now)) == w
  {
    hide ValidInitialInstall, Claimed, SeenCursor, TargetMatches;
    if driver.note.Opened? { ClaimedShape(plan, driver.note.root, cursor, now); }
  }

  /** Where one round of the effect loop stands: call the broker, next effect, or leave the loop. */
  datatype Step = Ready | Resolved | Done(ok: bool)

  /** What a part of a round may do: the ledger only grows, by one entry when an effect was resolved, and the
      log grows only by leaving the loop for Failed or Cancelled. */
  predicate StepFollows(
      before: Option<EvState>, logBefore: seq<RunEvent>, after: Option<EvState>, logAfter: seq<RunEvent>, step: Step)
  {
    && before.Some? && after.Some?
    && after.value.plan == before.value.plan && before.value.ledger <= after.value.ledger
    && logBefore <= logAfter
    && (if step.Done? then
          step.ok ==> after.value.pending.None? && (after.value.phase.Failed? || after.value.phase.Cancelled?)
        else
          && after.value.pending.None? && logAfter == logBefore && after.value.phase == before.value.phase
          && (step.Resolved? ==> |after.value.ledger| == |before.value.ledger| + 1))
  }

  datatype CancellationAnswer = AlreadyCancelled | CancellationPending | Refusal

  /** What preparing the next effect makes of a state: it stops for a cancellation, prepares a planned write,
      or settles a write prepared before by what is in the root. */
  predicate Prepares(s: EvState, atEnd: bool, roots: map<Id, seq<File>>, now: Time, step: Step, n: EvState)
    requires 0 <= |s.ledger| < |s.plan.effects|
  {
    if s.prepared.None? && s.cancellation.Some? then
      step == Done(atEnd) && (atEnd ==> n.phase.Cancelled? && n.ledger == s.ledger)
    else
      match Found(s, roots)
      case None =>
        if s.plan.effects[|s.ledger|].ReadFile? then step.Ready? && n == s
        else step.Ready? && Enabled(s, PrepareWrite(now)) && n == Next(s, PrepareWrite(now))
      case Some(ExpectedBefore) => if s.cancellation.None? then step.Ready? && n == s else step == Done(false)
      case Some(IntendedAfter) =>
        if LastDenied(s) then step == Done(false)
        else if s.cancellation.None? then
          step.Resolved? && Enabled(s, RecordReconciled(now)) && n == Next(s, RecordReconciled(now))
        else step == Done(atEnd) && (atEnd ==> n.phase.Cancelled? && |n.ledger| == |s.ledger| + 1)
      case Some(_) => step == Done(atEnd) && (atEnd ==> n.phase.Failed? && n.ledger == s.ledger)
  }

  /** What a resumed or claimed run ends as: an executor call that had started fails the run, a cancellation
      known before the call ends it without one, and otherwise the outcome decides. */
  predicate Continues(s: EvState, outcome: Outcome, phase: Phase) {
    match s.executor
    case Started(_, _) => phase.Failed?
    case NotStarted => if s.cancellation.Some? then phase.Cancelled? else EndsAs(outcome, phase)
    case OutcomeRecorded(_, _, recorded, _) => EndsAs(recorded, phase)
  }

  /** What a resumed verification ends as, given the verdict. */
  predicate VerifiesAs(s: EvState, passed: bool, phase: Phase) {
    && s.verifier.Some?
    && if s.cancellation.Some? then phase.Cancelled?
       else if s.verifier.value.PublicationObserved? || passed then phase.Reviewing?
       else phase.Failed?
  }

  class Loop {
    var revision: int
    var state: Option<EvState>
    var log: seq<RunEvent>
    var roots: map<Id, seq<File>>
    var driver: Driver
    ghost var committed: seq<RunEvent>
    ghost var invocations: seq<int>
    ghost var base: seq<RunEvent>
    ghost var actions: seq<Action>

    ghost function Durable(): World
      reads this
    {
      Alone(revision, state, log, roots, driver, committed, invocations)
    }

    /** The object is where the run of its actions ends. */
    ghost predicate Valid()
      reads this
    {
      ReadableRun(base) && PhaseEvents(base) == [] && Durable() == Run(Start(base), actions)
    }

    /** The driver has the present state in hand. */
    predicate Holds()
      reads this
    {
      driver.revision == revision && driver.state == state && state.Some?
    }

    /** The log ends where the state says, or can be made to by delivering the pending event. */
    predicate Reconcilable()
      requires state.Some?
      reads this
    {
      if state.value.pending.None? then CursorOf(log) == state.value.projected
      else ReconciledLog(state.value, log).Some?
    }

    /** One more action was taken. */
    twostate predicate Took(a: Action)
      reads this
    {
      && base == old(base) && actions == old(actions) + [a]
      && Durable() == Apply(old(Durable()), a)
    }

    constructor (events: seq<RunEvent>)
      requires ReadableRun(events) && PhaseEvents(events) == []
      ensures Valid() && log == events && state.None? && actions == [Load(ME)] && base == events
    {
      revision, state, log, roots := 0, None, events, map[];
      driver := Driver(0, None, false, Nothing);
      committed, invocations, base, actions := [], [], events, [Load(ME)];
      new;
      RunAppend(Start(events), [], Load(ME));
    }

    ghost method Record(a: Action, before: World)
      requires before == Run(Start(base), actions)
      requires Durable() == Apply(before, a)
      requires ReadableRun(base) && PhaseEvents(base) == []
      modifies `actions
      ensures Valid() && actions == old(actions) + [a]
    {
      RunAppend(Start(base), actions, a);
      actions := actions + [a];
    }

    /** A resume begins by loading what is durable; whatever the driver knew is gone. */
    method Resume()
      requires Valid()
      modifies this
      ensures Valid() && Took(Load(ME))
      ensures state == old(state) && log == old(log) && roots == old(roots) && revision == old(revision)
      ensures invocations == old(invocations)
      ensures driver == Driver(revision, state, false, Nothing)
    {
      ghost var before := Durable();
      driver := Driver(revision, state, false, Nothing);
      Record(Load(ME), before);
    }

    /** One compare-and-swap of the state the driver proposes for `cmd`. */
    method CasReplace(cmd: Command) returns (applied: bool)
      requires Valid()
      modifies this
      ensures Valid() && Took(Commit(ME, cmd))
      ensures log == old(log) && roots == old(roots)
      ensures applied <==> old(CommitApplies(Durable(), ME, cmd))
      ensures applied <==> old(Holds() && Succeeds(driver, state.value, cmd))
      ensures invocations == old(invocations)
      ensures applied ==> old(state).Some? && Enabled(old(state).value, cmd) && state.Some?
      ensures !applied ==> state == old(state) && revision == old(revision) && driver == old(driver) && committed == old(committed)
      ensures applied ==> committed == old(committed) + NewEvents(old(state).value, state.value)
      ensures applied ==> state == Some(Next(old(state).value, cmd))
      ensures applied && old(state).value.pending.None? && state.value.pending.Some? ==>
                FrozenMatches(state.value, state.value.pending.value)
      ensures applied ==> Holds() && driver.owns == ((old(driver).owns && !cmd.ClaimRecovery?) || cmd.ClaimRetry?)
      ensures applied ==> revision == old(revision) + 1 && driver == AfterWrite(old(driver), revision, state.value, cmd)
    {
      hide Run, Apply, CommitApplies, Next, Enabled, AfterWrite, NewEvents, Succeeds, FrozenMatches, ValidSuccessor, Permitted;
      ghost var before := Durable();
      SwapIsACommit(before, driver, cmd);
      if state.Some? { SwapSucceeds(base, actions, driver, cmd); } else { NothingToSwap(revision, state, driver, cmd); }
      applied := Swaps(revision, state, driver, cmd);
      if applied {
        var next := Next(state.value, cmd);
        if state.value.pending.None? { AcceptedEventIsFrozen(state.value, cmd); }
        committed := committed + NewEvents(state.value, next);
        revision := revision + 1;
        AfterWriteHolds(driver, revision, next, cmd);
        driver := AfterWrite(driver, revision, next, cmd);
        state := Some(next);
      }
      Record(Commit(ME, cmd), before);
    }

    /** Delivers the pending event, or checks that the log ends where the state says; then finishes it. */
    method ReconcilePending() returns (ok: bool)
      requires Valid() && Holds()
      modifies this
      ensures Valid() && base == old(base) && old(actions) <= actions
      ensures roots == old(roots) && old(log) <= log && invocations == old(invocations)
      ensures ok ==> Holds() && state.value.pending.None? && driver.owns == old(driver.owns)
      ensures ok && old(state).value.pending.None? ==>
                state == old(state) && log == old(log) && driver == old(driver) && CursorOf(log) == state.value.projected
      ensures ok && old(state).value.pending.Some? ==>
                && state == Some(Cleared(old(state).value)) && driver.note.Nothing?
                && ReconciledLog(old(state).value, old(log)) == Some(log)
      ensures ok <==> old(Reconcilable())
      ensures !ok ==> state == old(state)
      ensures !ok && old(state).value.pending.Some? && ReconciledLog(old(state).value, old(log)).None? ==>
                log == old(log)
    {
      hide Run, Apply, Swaps, Next, Enabled, AfterWrite, ReconciledLog, CommitApplies;
      var s := driver.state.value;
      if s.pending.None? { return CursorOf(log) == s.projected; }
      ghost var before := Durable();
      ConfirmIsReconciled(before, driver);
      var after := ReconciledLog(s, log);
      if after.None? { Record(Confirm(ME), before); return false; }
      ReconciledLogExtends(s, log);
      log := after.value;
      driver := driver.(note := Confirmed);
      Record(Confirm(ME), before);
      ghost var told := driver;
      ClearSucceeds(s, told);
      ok := CasReplace(ClearPending);
      ClearIsCleared(s, told, revision);
    }

    /** The write of a phase transition, which carries its event: nothing if the log does not end where the
        state says, and afterwards the event is the one thing to deliver. */
    method ReplaceWithEvent(cmd: Command) returns (ok: bool)
      requires Valid() && Holds() && state.value.pending.None? && Moves(cmd)
      modifies this
      ensures Valid() && base == old(base) && old(actions) <= actions
      ensures roots == old(roots) && log == old(log) && invocations == old(invocations)
      ensures ok <==> old(CursorOf(log) == state.value.projected && Succeeds(driver, state.value, cmd))
      ensures !ok ==> state == old(state) && driver == old(driver) && revision == old(revision)
      ensures ok ==>
                && Enabled(old(state).value, cmd) && state == Some(Next(old(state).value, cmd))
                && Holds() && (old(driver).owns || cmd.ClaimRetry? ==> driver.owns)
                && (Holding(cmd) ==> driver.owns == old(driver).owns)
                && state.value.pending.Some?
                && ReconciledLog(state.value, log) == Some(log + [state.value.pending.value])
    {
      hide Run, Apply, Swaps, Next, Enabled, AfterWrite, ReconciledLog, CommitApplies, OutboxInv, ReadableRun, Succeeds;
      hide FrozenMatches, PhaseEvents;
      if CursorOf(log) != state.value.projected { return false; }
      ghost var before := Durable();
      EveryRunKeepsOutbox(base, actions);
      ok := CasReplace(cmd);
      if !ok { return; }
      MovesAttach(before.state.value, cmd, before.drivers[ME], revision);
      EveryRunKeepsOutbox(base, actions);
      NewEventIsAppended(before, Durable(), state.value);
    }

    /** A phase transition: the state and its event in one write, then the event delivered to the log. */
    method TransitionWithEvent(to: Phase, trigger: Trigger, now: Time) returns (ok: bool)
      requires Valid() && Holds() && state.value.pending.None?
      modifies this
      ensures Valid() && base == old(base) && old(actions) <= actions
      ensures roots == old(roots) && old(log) <= log && invocations == old(invocations)
      ensures ok ==> Holds() && driver.owns == old(driver.owns)
      ensures ok <==> old(CanMove(driver, state.value, log, to, trigger, now))
      ensures ok ==> HasMoved(old(state).value, old(log), state, log, to, trigger, now)
      ensures !ok ==> state == old(state) && log == old(log)
    {
      hide Run, Apply, Swaps, Next, Enabled, AfterWrite, ReconciledLog, CommitApplies, ReadableRun, Moved, Succeeds;
      hide PhaseEvents, Cleared;
      ghost var s := state.value;
      ok := ReplaceWithEvent(Transition(to, trigger, now));
      if !ok { return; }
      TransitionIsMoved(s, to, trigger, now);
      ok := ReconcilePending();
    }

    /** The executor call itself, by the driver whose Started record is durable. */
    method CallExecutor(outcome: Outcome)
      requires Valid() && driver.note.MayInvoke? && driver.state.Some?
      modifies this
      ensures Valid() && base == old(base) && old(actions) <= actions
      ensures state == old(state) && log == old(log) && roots == old(roots) && revision == old(revision)
      ensures driver == old(driver).(note := Answered(outcome))
      ensures invocations == old(invocations) + [old(driver).state.value.attempt]
    {
      hide Run, Apply, ReadableRun;
      ghost var before := Durable();
      CallSteps(before, driver, outcome);
      driver := driver.(note := Calling);
      invocations := invocations + [driver.state.value.attempt];
      Record(Invoke(ME), before);
      before := Durable();
      CallSteps(before, driver, outcome);
      driver := driver.(note := Answered(outcome));
      Record(Return(ME, outcome), before);
    }

    /** Calls the executor at most once: the call comes after the Started record is durable, and its outcome
        is recorded by the same driver. */
    method InvokeExecutor(outcome: Outcome, startedAt: Time, recordedAt: Time) returns (ok: bool)
      requires Valid() && Holds()
      modifies this
      ensures Valid() && base == old(base) && old(actions) <= actions
      ensures log == old(log) && roots == old(roots)
      ensures invocations == old(invocations) || invocations == old(invocations) + [old(state).value.attempt]
      ensures state.Some? && (invocations != old(invocations) ==> !state.value.executor.NotStarted?)
      ensures state.value.pending == old(state).value.pending
      ensures invocations != old(invocations) <==> old(Succeeds(driver, state.value, StartExecutor(startedAt)))
      ensures ok <==> invocations != old(invocations) && old(Recordable(state.value, outcome, startedAt, recordedAt))
      ensures ok ==> Holds() && driver.owns == old(driver.owns) && invocations == old(invocations) + [old(state).value.attempt]
      ensures ok ==>
                && old(state).value.executor.NotStarted? && old(state).value.cancellation.None?
                && Enabled(old(state).value, StartExecutor(startedAt))
                && Enabled(Next(old(state).value, StartExecutor(startedAt)), RecordOutcome(outcome, recordedAt))
                && state.value.executor.OutcomeRecorded? && state.value.executor.outcome == outcome
                && state.value == Next(Next(old(state).value, StartExecutor(startedAt)), RecordOutcome(outcome, recordedAt))
    {
      hide Run, Apply, Swaps, Next, Enabled, AfterWrite, CommitApplies, ReadableRun, Succeeds, Recordable;
      ghost var s := state.value;
      ghost var first := driver;
      ok := CasReplace(StartExecutor(startedAt));
      if !ok { return; }
      StartedMayInvoke(s, startedAt, first, revision);
      CallExecutor(outcome);
      ghost var t := state.value;
      ghost var second := driver;
      OutcomeSucceedsIff(s, startedAt, outcome, recordedAt, first, second);
      ok := CasReplace(RecordOutcome(outcome, recordedAt));
      if ok { RecordedByOwner(t, outcome, recordedAt, second, revision); }
    }

    /** Records the wish to cancel, once; a finished run has nothing left to cancel. */
    method RequestCancellation(request: Id, now: Time) returns (answer: CancellationAnswer)
      requires Valid() && Holds()
      modifies this
      ensures Valid() && base == old(base) && old(actions) <= actions
      ensures answer.AlreadyCancelled? <==> old(Reconcilable()) && old(state).value.phase.Cancelled?
      ensures answer.CancellationPending? <==>
                && old(Reconcilable()) && !Terminal(old(state).value.phase)
                && (if old(state).value.cancellation.Some? then old(state).value.cancellation.value.request == request
                    else old(state).value.time <= now)
      ensures answer.CancellationPending? ==>
                state.Some? && state.value.cancellation.Some? && state.value.cancellation.value.request == request
      ensures state.Some? && state.value.phase == old(state).value.phase
      ensures old(state).value.cancellation.Some? ==> state.value.cancellation == old(state).value.cancellation
    {
      hide Run, Apply, Swaps, Next, Enabled, AfterWrite, CommitApplies, ReadableRun, ReconciledLog, Succeeds;
      var ok := ReconcilePending();
      if !ok { return Refusal; }
      var s := state.value;
      if s.phase.Cancelled? { return AlreadyCancelled; }
      if Terminal(s.phase) { return Refusal; }
      if s.cancellation.Some? {
        return if s.cancellation.value.request == request then CancellationPending else Refusal;
      }
      RequestSucceedsIff(s, request, now, driver);
      ok := CasReplace(Command.RequestCancellation(request, now));
      if ok { RequestIsRecorded(s, request, now); }
      answer := if ok then CancellationPending else Refusal;
    }

    /** Classifies the root against the prepared write, by its exact files. */
    method InspectPrepared() returns (found: Inspection)
      requires Valid() && MayInspect(revision, state, driver)
      modifies this
      ensures Valid() && base == old(base) && actions == old(actions) + [Inspect(ME)]
      ensures state == old(state) && log == old(log) && roots == old(roots) && invocations == old(invocations)
      ensures revision == old(revision) && driver == old(driver).(note := Inspected(found))
      ensures found == InspectRoot(roots, state.value.workspace.value, state.value.prepared.value)
    {
      hide Run, Apply, InspectRoot, ReadableRun;
      ghost var before := Durable();
      InspectStep(before, driver);
      found := InspectRoot(roots, state.value.workspace.value, state.value.prepared.value);
      driver := driver.(note := Inspected(found));
      Record(Inspect(ME), before);
    }

    /** The broker's call for the next effect: an error, or a receipt that may be a denial. */
    method ExecuteNext(denied: bool) returns (answered: bool)
      requires Valid() && Holds()
      modifies this
      ensures Valid() && base == old(base) && actions == old(actions) + [Execute(ME, denied)]
      ensures state == old(state) && log == old(log) && invocations == old(invocations) && revision == old(revision)
      ensures answered <==> old(Answers(revision, state, roots, driver, denied))
      ensures answered ==> driver == old(driver).(note := Executed(denied))
      ensures !answered ==> driver == old(driver) && roots == old(roots)
      ensures denied ==> roots == old(roots)
      ensures answered ==> state.Some? && (RootIsThere(state.value, roots) <==> old(RootIsThere(state.value, roots)))
    {
      hide Run, Apply, ReadableRun, Answers;
      ghost var before := Durable();
      ExecuteIsAnswered(before, driver, denied);
      answered := Answers(revision, state, roots, driver, denied);
      if answered {
        if !denied && state.value.prepared.Some? {
          roots := roots[state.value.workspace.value.token := state.value.prepared.value.after.files];
        }
        driver := driver.(note := Executed(denied));
      }
      Record(Execute(ME, denied), before);
    }

    /** The clock never goes back. */
    method ReadClock(since: Time) returns (now: Time)
      ensures since <= now
    {
      now := *;
      if now < since { now := since; }
    }

    lemma StateIsSure()
      requires Valid() && state.Some?
      ensures Sure(state.value, roots)
    {
      hide Run, Sure;
      EveryStateIsSure(base, actions);
    }

    /** Resolves the planned effects one after the other, write-ahead: a write is prepared durably, then made,
        then recorded; found half done it is reconciled, and after a cancellation nothing new is begun. */
    method ExecuteEffects(denial: Option<int>) returns (ok: bool)
      requires Valid() && Holds() && InHand(driver, state.value) && Effective(state.value)
      modifies this
      ensures Valid() && base == old(base) && old(actions) <= actions
      ensures old(log) <= log && invocations == old(invocations)
      ensures state.Some? && state.value.plan == old(state).value.plan && old(state).value.ledger <= state.value.ledger
      ensures ok <==> old(EffectsSucceed(state.value, AtEnd(state.value, log), roots, denial))
      ensures ok ==> Holds() && state.value.pending.None?
      ensures ok && old(EffectsLeave(state.value, roots, denial)) ==> state.value.phase.Failed? || state.value.phase.Cancelled?
      ensures ok && !old(EffectsLeave(state.value, roots, denial)) ==>
                && InHand(driver, state.value) && Worked(state.value)
                && log == old(log) && state.value.projected == old(state).value.projected
                && Advanced(old(state).value, old(roots), state.value, roots)
    {
      hide Run, Apply, ReadableRun, PhaseEvents, EffectsSucceed, EffectsLeave, Advanced, Sure;
      ghost var s, before := state.value, roots;
      StateIsSure();
      NothingAdvanced(s, roots);
      while true
        invariant Valid() && Holds() && InHand(driver, state.value) && Effective(state.value)
        invariant base == old(base) && old(actions) <= actions
        invariant log == old(log) && invocations == old(invocations)
        invariant state.value.plan == s.plan && s.ledger <= state.value.ledger && state.value.projected == s.projected
        invariant Sure(state.value, roots) && Advanced(s, before, state.value, roots)
        invariant EffectsSucceed(state.value, AtEnd(state.value, log), roots, denial)
             <==> EffectsSucceed(s, AtEnd(s, log), before, denial)
        invariant EffectsLeave(state.value, roots, denial) <==> EffectsLeave(s, before, denial)
        decreases |state.value.plan.effects| - |state.value.ledger|
      {
        LedgerFits(state.value, roots);
        if |state.value.ledger| == |state.value.plan.effects| {
          WorkedSucceeds(state.value, AtEnd(state.value, log), roots, denial);
          return true;
        }
        ghost var m, rooted := state.value, roots;
        var step := ResolveNext(denial);
        if step.Done? { return step.ok; }
        StateIsSure();
        StillAdvances(s, before, m, rooted, state.value, roots);
      }
    }

    /** One round: the next effect is resolved, or the loop ends. */
    method ResolveNext(denial: Option<int>) returns (step: Step)
      requires Valid() && Holds() && InHand(driver, state.value) && Effective(state.value)
      requires |state.value.ledger| < |state.value.plan.effects|
      modifies this
      ensures Valid() && base == old(base) && old(actions) <= actions
      ensures StepFollows(old(state), old(log), state, log, step) && invocations == old(invocations)
      ensures !step.Ready? && (!step.Done? || step.ok ==> Holds())
      ensures step.Done? ==>
                && (step.ok <==> old(EffectsSucceed(state.value, AtEnd(state.value, log), roots, denial)))
                && (step.ok ==> old(EffectsLeave(state.value, roots, denial)))
      ensures step.Resolved? ==>
                && InHand(driver, state.value) && Resolves(old(state).value, state.value)
                && state.value.cancellation.None? && RootIsThere(state.value, roots)
                && (old(EffectsSucceed(state.value, AtEnd(state.value, log), roots, denial))
                    <==> EffectsSucceed(state.value, AtEnd(state.value, log), roots, denial))
                && (old(EffectsLeave(state.value, roots, denial)) <==> EffectsLeave(state.value, roots, denial))
    {
      hide Run, Apply, Next, Enabled, ReadableRun, PhaseEvents, InspectRoot, NextIsWrite, Sure;
      ghost var s, before := state.value, roots;
      ghost var atEnd := AtEnd(s, log);
      StateIsSure();
      var now := ReadClock(state.value.time);
      step := PrepareNext(now);
      if step.Done? {
        StoppedSucceeds(s, atEnd, before, denial);
        return;
      }
      if step.Ready? {
        RoundDecides(s, atEnd, before, denial);
        step := MakeAndRecord(denial == Some(|state.value.ledger|));
      }
      FoundMade(s, before);
      hide EffectsSucceed, EffectsLeave, Prepares;
      if step.Resolved? { RestSucceeds(s, state.value, atEnd, before, roots, denial); }
    }

    /** Up to the point where the broker may be called: stop for a cancellation, settle a write that was
        prepared before, or prepare the next one. */
    method PrepareNext(now: Time) returns (step: Step)
      requires Valid() && Holds() && InHand(driver, state.value) && Effective(state.value) && state.value.time <= now
      requires |state.value.ledger| < |state.value.plan.effects|
      modifies this
      ensures Valid() && base == old(base) && old(actions) <= actions
      ensures StepFollows(old(state), old(log), state, log, step) && invocations == old(invocations) && roots == old(roots)
      ensures Prepares(old(state).value, old(AtEnd(state.value, log)), old(roots), now, step, state.value)
      ensures step.Ready? ==> InHand(driver, state.value) && Readied(old(state).value, state.value)
                              && RootHolds(state.value, roots)
      ensures step.Resolved? ==> InHand(driver, state.value) && Resolves(old(state).value, state.value)
      ensures !step.Done? || step.ok ==> Holds()
    {
      hide Run, Apply, Swaps, Next, Enabled, AfterWrite, CommitApplies, ReadableRun, ReconciledLog, Moved;
      hide InspectRoot, Permitted, NextIsWrite, ValidSuccessor, NewEvents, Succeeds, CanMove, PhaseEvents, ValidState;
      var s := state.value;
      StateIsSure();
      var ok := true;
      if s.cancellation.Some? && s.prepared.None? {
        CancelledBeforeNext(driver, s, log, now);
        ok := Finish(Cancelled, CancellationAccepted, now);
        return Done(ok);
      }
      if s.prepared.None? {
        CurrentRootHolds(s, roots);
        if s.plan.effects[|s.ledger|].WriteFile? {
          NextWrite(s);
          WriteIsPrepared(base, actions, driver, s, now);
          ok := Advance(PrepareWrite(now));
        } else {
          NextRead(s);
        }
        return Ready;
      }
      step := SettlePrepared(now);
    }

    /** A write that was prepared before is settled by what is in the root. */
    method SettlePrepared(now: Time) returns (step: Step)
      requires Valid() && Holds() && InHand(driver, state.value) && Effective(state.value) && state.value.time <= now
      requires |state.value.ledger| < |state.value.plan.effects| && state.value.prepared.Some?
      modifies this
      ensures Valid() && base == old(base) && old(actions) <= actions
      ensures StepFollows(old(state), old(log), state, log, step) && invocations == old(invocations) && roots == old(roots)
      ensures Prepares(old(state).value, old(AtEnd(state.value, log)), old(roots), now, step, state.value)
      ensures step.Ready? ==> InHand(driver, state.value) && Readied(old(state).value, state.value)
                              && RootHolds(state.value, roots)
      ensures step.Resolved? ==> InHand(driver, state.value) && Resolves(old(state).value, state.value)
      ensures !step.Done? || step.ok ==> Holds()
    {
      hide Run, Apply, Swaps, Next, Enabled, AfterWrite, CommitApplies, ReadableRun, ReconciledLog, Moved;
      hide InspectRoot, Permitted, NextIsWrite, ValidSuccessor, NewEvents, Succeeds, CanMove, PhaseEvents, Sure, HasMoved;
      var s := state.value;
      StateIsSure();
      SureIsValid(s, roots);
      PreparedIsLast(s);
      hide ValidState, Orderly;
      var found := InspectPrepared();
      match found {
        case IntendedAfter =>
          step := ReconcileMade(now);
        case ExpectedBefore =>
          FoundBefore(s, roots);
          if s.cancellation.None? { return Ready; }
          DropIsRefused(driver, s, now);
          var ok := DropAndCancel(now);
          step := Done(ok);
        case _ =>
          LostIsMarked(driver, s, now);
          var ok := Advance(MarkCleanup(now));
          if !ok { return Done(false); }
          MarkedFails(driver, state.value, log, now);
          ok := Finish(Failed, FailureRecorded, now);
          step := Done(ok);
      }
    }

    /** A write found made is recorded, and then a cancellation is carried out. */
    method ReconcileMade(now: Time) returns (step: Step)
      requires Valid() && Holds() && InHand(driver, state.value) && Effective(state.value) && state.value.time <= now
      requires NextIsWrite(state.value) && state.value.prepared.Some? && driver.note == Inspected(IntendedAfter)
      modifies this
      ensures Valid() && base == old(base) && old(actions) <= actions
      ensures StepFollows(old(state), old(log), state, log, step) && invocations == old(invocations) && roots == old(roots)
      ensures var s := old(state).value;
              if LastDenied(s) then step == Done(false)
              else if s.cancellation.None? then
                && step.Resolved? && Enabled(s, RecordReconciled(now)) && state.value == Next(s, RecordReconciled(now))
                && InHand(driver, state.value) && Resolves(s, state.value)
              else
                && step == Done(old(AtEnd(state.value, log)))
                && (step.ok ==> state.value.phase.Cancelled? && |state.value.ledger| == |s.ledger| + 1)
      ensures !step.Done? || step.ok ==> Holds()
    {
      hide Run, Apply, Next, Enabled, ReadableRun, NextIsWrite, Succeeds, CanMove, PhaseEvents, HasMoved, LastDenied;
      var s := state.value;
      MadeIsReconciled(driver, s, now);
      var ok := Advance(RecordReconciled(now));
      if !ok { return Done(false); }
      if s.cancellation.None? { return Resolved; }
      ReconciledIsCancelled(driver, state.value, log, now);
      ok := Finish(Cancelled, CancellationAccepted, now);
      step := Done(ok);
    }

    /** Gives up a prepared write that was not made, for a cancellation. */
    method DropAndCancel(now: Time) returns (ok: bool)
      requires Valid() && Holds() && InHand(driver, state.value)
      modifies this
      ensures Valid() && base == old(base) && old(actions) <= actions
      ensures old(log) <= log && roots == old(roots) && invocations == old(invocations)
      ensures old(Succeeds(driver, state.value, DropPrepared(now))) || (!ok && state == old(state) && driver == old(driver))
      ensures state.Some? && state.value.plan == old(state).value.plan && state.value.ledger == old(state).value.ledger
      ensures ok ==> Holds() && state.value.pending.None? && state.value.phase.Cancelled?
    {
      hide Run, Apply, Next, Enabled, ReadableRun, Succeeds, CanMove, PhaseEvents, HasMoved;
      ok := Advance(DropPrepared(now));
      if !ok { return; }
      ok := Finish(Cancelled, CancellationAccepted, now);
    }

    /** Calls the broker for the next effect and records its receipt; a denial fails the run. */
    method MakeAndRecord(denied: bool) returns (step: Step)
      requires Valid() && Holds() && InHand(driver, state.value) && Effective(state.value) && NextEffect(state.value)
      requires state.value.cancellation.None? && (NextIsWrite(state.value) <==> state.value.prepared.Some?)
      requires RootHolds(state.value, roots)
      modifies this
      ensures Valid() && base == old(base) && old(actions) <= actions
      ensures StepFollows(old(state), old(log), state, log, step) && invocations == old(invocations)
      ensures step == if old(LastDenied(state.value) || !(denied || RootIsThere(state.value, roots))) then Done(false)
                      else if denied then Done(old(AtEnd(state.value, log))) else Resolved
      ensures step.Resolved? ==> InHand(driver, state.value) && Resolves(old(state).value, state.value)
                                 && RootIsThere(state.value, roots)
      ensures step.Done? && step.ok ==> state.value.phase.Failed?
      ensures !step.Done? || step.ok ==> Holds()
    {
      hide Run, Apply, Swaps, Next, Enabled, AfterWrite, CommitApplies, ReadableRun, ReconciledLog, Moved, Answers, PhaseEvents;
      hide NextEffect, NextIsWrite, Succeeds, CanMove, Permitted, LastDenied;
      ghost var s := state.value;
      AnswersIff(revision, s, roots, driver, denied);
      var ok := ExecuteNext(denied);
      if !ok { return Done(false); }
      var recordedAt := ReadClock(state.value.time);
      ReceiptIsRecorded(driver, s, denied, recordedAt);
      ok := Advance(RecordReceipt(denied, recordedAt));
      if !ok { return Done(false); }
      if !denied { return Resolved; }
      DeniedFails(driver, state.value, log, recordedAt);
      ok := Finish(Failed, FailureRecorded, recordedAt);
      step := Done(ok);
    }

    /** One write of the effect loop: the ledger grows by an entry, or stays. */
    method Advance(cmd: Command) returns (ok: bool)
      requires Valid() && Holds() && EffectWrite(cmd)
      modifies this
      ensures Valid() && base == old(base) && old(actions) <= actions
      ensures log == old(log) && invocations == old(invocations) && roots == old(roots)
      ensures ok <==> old(Succeeds(driver, state.value, cmd))
      ensures state.Some? && EffectFollows(old(state).value, cmd, state.value, ok)
      ensures ok ==> Enabled(old(state).value, cmd) && state == Some(Next(old(state).value, cmd))
      ensures ok ==> Holds() && driver.owns == old(driver).owns && NotedBy(cmd, driver.note)
      ensures !ok ==> driver == old(driver)
    {
      hide Run, Apply, Swaps, Next, Enabled, AfterWrite, CommitApplies, ReadableRun;
      hide Succeeds;
      ghost var s := state.value;
      ghost var first := driver;
      ok := CasReplace(cmd);
      if ok {
        EffectWritesFollow(s, cmd);
        EffectWritesTell(first, revision, state.value, cmd);
      }
    }

    /** A transition out of the effect loop. */
    method Finish(to: Phase, trigger: Trigger, now: Time) returns (ok: bool)
      requires Valid() && Holds() && state.value.pending.None?
      modifies this
      ensures Valid() && base == old(base) && old(actions) <= actions
      ensures roots == old(roots) && old(log) <= log && invocations == old(invocations)
      ensures state.Some? && state.value.plan == old(state).value.plan && state.value.ledger == old(state).value.ledger
      ensures ok <==> old(CanMove(driver, state.value, log, to, trigger, now))
      ensures ok ==> Holds() && state.value.pending.None? && state.value.phase == to && |log| == |old(log)| + 1
      ensures ok ==> HasMoved(old(state).value, old(log), state, log, to, trigger, now) && driver.owns == old(driver).owns
    {
      hide Run, Apply, Swaps, Next, Enabled, AfterWrite, CommitApplies, ReadableRun, Moved, ReconciledLog, CanMove;
      ghost var s := state.value;
      ok := TransitionWithEvent(to, trigger, now);
      MovedKeepsTheLedger(s, to, trigger, now);
    }

    /** Removes the leased root, as closing its lease does. */
    method RemoveLeasedRoot()
      requires Valid() && Holds()
      modifies this
      ensures Valid() && base == old(base) && old(actions) <= actions
      ensures state == old(state) && log == old(log) && invocations == old(invocations) && driver == old(driver)
      ensures revision == old(revision)
      ensures driver.note == Nothing && state.value.workspace.Some? ==>
                roots == old(roots) - {state.value.workspace.value.token}
    {
      hide Run, Apply, ReadableRun;
      if state.value.workspace.Some? {
        ghost var before := Durable();
        var token := state.value.workspace.value.token;
        RemoveStep(before, driver, token);
        if !(driver.note.Opened? && driver.note.root.token == token) { roots := roots - {token}; }
        Record(RemoveRoot(token), before);
      }
    }

    /** Removes the root and records that it is closed. */
    method CloseLease() returns (ok: bool)
      requires Valid() && Holds() && state.value.pending.None?
      modifies this
      ensures Valid() && base == old(base) && old(actions) <= actions
      ensures log == old(log) && invocations == old(invocations) && state.Some?
      ensures ok <==> old(Succeeds(driver, state.value, CloseWorkspace))
      ensures ok ==>
                && old(state).value.workspace.Some? && state == Some(ClosedState(old(state).value)) && Holds()
                && Closed(state.value) && state.value.pending.None? && state.value.phase == old(state).value.phase
                && driver == AfterWrite(old(driver), old(revision) + 1, state.value, CloseWorkspace)
      ensures ok && old(driver).note == Nothing ==> roots == old(roots) - {old(state).value.workspace.value.token}
      ensures !ok ==> state == old(state)
    {
      hide Run, Apply, Swaps, Next, Enabled, AfterWrite, CommitApplies, ReadableRun, Succeeds;
      RemoveLeasedRoot();
      ghost var s := state.value;
      ok := CasReplace(CloseWorkspace);
      if ok { CloseCloses(s); }
    }

    /** Closes the workspace durably, then makes the transition it was closed for: two writes, and a crash
        between them strands the run. */
    method CloseAndTransition(to: Phase, trigger: Trigger, now: Time) returns (ok: bool)
      requires Valid() && Holds() && state.value.pending.None?
      modifies this
      ensures Valid() && base == old(base) && old(actions) <= actions
      ensures old(log) <= log && invocations == old(invocations) && state.Some?
      ensures ok <==> old(CanClose(driver, revision, state.value, log, to, trigger, now))
      ensures ok ==> Holds() && state.value.pending.None? && state.value.phase == to && Closed(state.value)
      ensures ok ==> HasMoved(ClosedState(old(state).value), old(log), state, log, to, trigger, now)
      ensures ok && old(driver).note == Nothing ==> roots == old(roots) - {old(state).value.workspace.value.token}
    {
      hide Run, Apply, AfterWrite, ReadableRun, Moved, CanMove, Succeeds, Cleared, PhaseEvents;
      ok := CloseLease();
      if !ok { return; }
      ghost var t := state.value;
      ok := TransitionWithEvent(to, trigger, now);
      MovedKeepsTheLedger(t, to, trigger, now);
      MovedKeepsTheWorkspace(t, to, trigger, now);
    }

    /** Admits the observed evidence: to Reviewing, or to Cancelled when a cancellation was recorded. */
    method AdmitObserved(now: Time) returns (ok: bool)
      requires Valid() && Holds() && state.value.pending.None?
      modifies this
      ensures Valid() && base == old(base) && old(actions) <= actions
      ensures old(log) <= log && invocations == old(invocations) && state.Some?
      ensures ok ==> Holds() && state.value.pending.None?
      ensures ok <==>
                old(if state.value.cancellation.Some? then CanMove(driver, state.value, log, Cancelled, CancellationAccepted, now)
                    else CursorOf(log) == state.value.projected && Succeeds(driver, state.value, Admit(now)))
      ensures ok ==>
                && |log| == |old(log)| + 1
                && if old(state).value.cancellation.Some? then state.value.phase.Cancelled?
                   else state.value.phase.Reviewing? && state.value.cancellation.None?
    {
      hide Run, Apply, Swaps, Next, Enabled, AfterWrite, CommitApplies, ReadableRun, Moved, ReconciledLog, Succeeds;
      if state.value.cancellation.Some? {
        ok := Finish(Cancelled, CancellationAccepted, now);
        return;
      }
      ghost var s := state.value;
      ok := ReplaceWithEvent(Admit(now));
      if !ok { return; }
      AdmitReaches(s, now);
      ok := ReconcilePending();
    }

    /** Seals the workspace for the verifier, runs it and admits its evidence; a failing verdict fails the run. */
    method VerifyAndAdmit(g: Given) returns (ok: bool)
      requires Valid() && Holds() && InHand(driver, state.value) && Worked(state.value)
      modifies this
      ensures Valid() && base == old(base) && old(actions) <= actions
      ensures old(log) <= log && invocations == old(invocations) && state.Some?
      ensures ok <==> g.checks && old(AtEnd(state.value, log) && SealReady(state.value, roots, g.inputs, g.chosen))
      ensures ok ==> Holds() && state.value.pending.None?
      ensures ok ==> state.value.phase == (if g.passed then Reviewing else Failed)
      ensures ok && state.value.phase.Reviewing? ==> state.value.cancellation.None?
    {
      hide Run, Apply, Swaps, Next, Enabled, AfterWrite, CommitApplies, ReadableRun, Moved, ReconciledLog;
      hide Succeeds, CanMove, Sure, LastDenied, ValidState, Orderly, SealKept, PhaseEvents, Cleared;
      ghost var s := state.value;
      StateIsSure();
      SureIsValid(s, roots);
      NothingLeftToPrepare(s);
      if !g.checks || state.value.workspace.value.token !in roots { return false; }
      var now := ReadClock(SealedSince(state.value));
      SealIsRecorded(driver, s, g.inputs, g.chosen, now);
      ok := Proceed(RecordReplay(g.inputs, g.chosen, now));
      if !ok { return; }
      ghost var n := state.value;
      StateIsSure();
      SureIsValid(n, roots);
      now := ReadClock(state.value.time);
      SealedIsVerified(driver, n, log, now);
      SameLedgerSameDenial(s, n);
      ok := Finish(Verifying, EngineerCompleted, now);
      if !ok { return; }
      TransitionEndsTheLog(n, old(log), log, Verifying, EngineerCompleted, now);
      now := ReadClock(state.value.time);
      VerifierBegins(driver, state.value, now);
      ok := Proceed(StartVerifier(now));
      if !ok { return; }
      ok := RunVerifier(g);
    }

    /** The verifier's verdict on the sealed copy: observed when it passed, a failure otherwise. */
    method RunVerifier(g: Given) returns (ok: bool)
      requires Valid() && Holds() && InHand(driver, state.value) && Checking(state.value)
      modifies this
      ensures Valid() && base == old(base) && old(actions) <= actions
      ensures old(log) <= log && invocations == old(invocations) && state.Some?
      ensures ok <==> old(AtEnd(state.value, log)) && old(state).value.cancellation.None?
      ensures ok ==> Holds() && state.value.pending.None?
      ensures ok ==> state.value.phase == (if g.passed then Reviewing else Failed)
      ensures ok && state.value.phase.Reviewing? ==> state.value.cancellation.None?
    {
      hide Run, Apply, Swaps, Next, Enabled, AfterWrite, CommitApplies, ReadableRun, Moved, ReconciledLog, Succeeds, CanMove;
      hide PhaseEvents;
      var now := ReadClock(state.value.time);
      if g.passed {
        VerdictIsObserved(driver, state.value, g.transcript, g.bundle, now);
        ok := Proceed(Observe(g.transcript, g.bundle, now));
        if !ok { return; }
        now := ReadClock(state.value.time);
        ObservedIsAdmitted(driver, state.value, log, now);
        ok := AdmitObserved(now);
      } else {
        VerdictMoves(driver, state.value, log, now);
        ok := Finish(Failed, FailureRecorded, now);
      }
    }

    /** One write that neither moves the phase nor calls anyone. */
    method Proceed(cmd: Command) returns (ok: bool)
      requires Valid() && Holds() && state.value.pending.None? && PlainWrite(cmd)
      modifies this
      ensures Valid() && base == old(base) && old(actions) <= actions
      ensures log == old(log) && roots == old(roots) && invocations == old(invocations) && state.Some?
      ensures state.value.phase == old(state).value.phase && state.value.executor == old(state).value.executor
      ensures state.value.pending.None? && state.value.cancellation == old(state).value.cancellation
      ensures ok <==> old(Succeeds(driver, state.value, cmd))
      ensures ok ==> driver.owns == (old(driver).owns && !cmd.ClaimRecovery?) && (driver.note.Fenced? <==> cmd.ClaimRecovery?)
      ensures ok ==> Holds() && Enabled(old(state).value, cmd) && state == Some(Next(old(state).value, cmd))
    {
      hide Succeeds;
      hide Run, Apply, Swaps, Next, Enabled, AfterWrite, CommitApplies, ReadableRun;
      ghost var s := state.value;
      ghost var first := driver;
      ok := CasReplace(cmd);
      if ok {
        PlainWritesStay(s, cmd);
        AfterWriteHolds(first, revision, state.value, cmd);
      }
    }

    /** Closes the workspace of an attempt that did not complete, and ends it. */
    method EndAttempt(to: Phase, trigger: Trigger) returns (ok: bool)
      requires Valid() && Holds() && InHand(driver, state.value) && state.value.phase.Engineering?
      requires EndsBy(state.value, to, trigger)
      modifies this
      ensures Valid() && base == old(base) && old(actions) <= actions
      ensures old(log) <= log && invocations == old(invocations) && state.Some?
      ensures ok <==> old(AtEnd(state.value, log))
      ensures ok ==> Holds() && state.value.pending.None? && state.value.phase == to && Closed(state.value)
    {
      hide Run, Apply, ReadableRun, CanClose, PhaseEvents, HasMoved, EndsBy, Sure;
      var now := ReadClock(state.value.time);
      StateIsSure();
      SureIsValid(state.value, roots);
      hide ValidState, Orderly;
      AttemptCloses(driver, revision, state.value, log, to, trigger, now);
      ok := CloseAndTransition(to, trigger, now);
    }

    /** What follows a recorded outcome: the effects and the verifier, or the end of the attempt. */
    method ContinueAfterExecutor(g: Given) returns (ok: bool)
      requires Valid() && Holds() && InHand(driver, state.value) && state.value.phase.Engineering?
      modifies this
      ensures Valid() && base == old(base) && old(actions) <= actions
      ensures old(log) <= log && invocations == old(invocations) && state.Some?
      ensures ok <==> && old(state).value.executor.OutcomeRecorded?
                      && old(OutcomeSucceeds(state.value, state.value.executor.outcome, AtEnd(state.value, log), roots, g))
      ensures ok ==> Holds() && state.value.pending.None? && Ended(state.value.phase)
      ensures ok && state.value.phase.Reviewing? ==> state.value.cancellation.None?
      ensures ok ==> EndsAs(old(state).value.executor.outcome, state.value.phase)
    {
      hide Run, Apply, Swaps, Next, Enabled, AfterWrite, CommitApplies, ReadableRun, Moved, ReconciledLog, CanClose, PhaseEvents;
      hide EffectsSucceed, EffectsLeave, SealReady, Succeeds, Sure;
      if !state.value.executor.OutcomeRecorded? { return false; }
      match state.value.executor.outcome {
        case ExecutorRetry(_, _) => ok := EndAttempt(RetryPending, RetryRequired);
        case ExecutorFailed(_) => ok := EndAttempt(Failed, FailureRecorded);
        case ExecutorTimedOut(_) => ok := EndAttempt(Failed, FailureRecorded);
        case ExecutorCancelled(_) => ok := EndAttempt(Cancelled, CancellationAccepted);
        case Completed(_) => ok := ContinueCompleted(g);
      }
    }

    /** A completed attempt: its result is recorded, its effects are resolved, and it is verified. */
    method ContinueCompleted(g: Given) returns (ok: bool)
      requires Valid() && Holds() && InHand(driver, state.value) && state.value.phase.Engineering? && HasCompleted(state.value)
      modifies this
      ensures Valid() && base == old(base) && old(actions) <= actions
      ensures old(log) <= log && invocations == old(invocations) && state.Some?
      ensures ok <==> old(OutcomeSucceeds(state.value, state.value.executor.outcome, AtEnd(state.value, log), roots, g))
      ensures ok ==> Holds() && state.value.pending.None?
      ensures ok ==> state.value.phase.Reviewing? || state.value.phase.Failed? || state.value.phase.Cancelled?
      ensures ok && state.value.phase.Reviewing? ==> state.value.cancellation.None?
    {
      hide Run, Apply, Swaps, Next, Enabled, AfterWrite, CommitApplies, ReadableRun, Moved, ReconciledLog, PhaseEvents;
      hide EffectsSucceed, EffectsLeave, Succeeds, Sure, SameWork, OutcomeSucceeds, LastDenied, Advanced;
      if state.value.result.None? {
        var now := ReadClock(state.value.time);
        ok := RecordResult(now, g);
        if !ok { return; }
      }
      ghost var m, before := state.value, roots;
      StateIsSure();
      UnsealedYet(m, roots);
      OutcomeUnfolds(m, m.executor.outcome, AtEnd(m, log), roots, g);
      ok := ExecuteEffects(g.denial);
      if !ok || state.value.phase.Failed? || state.value.phase.Cancelled? { return; }
      AdvancedIsReady(m, before, state.value, roots, g);
      ok := VerifyAndAdmit(g);
    }

    /** The result is recorded with the outcome's; that never fails. */
    method RecordResult(now: Time, ghost g: Given) returns (ok: bool)
      requires Valid() && Holds() && InHand(driver, state.value) && state.value.phase.Engineering? && HasCompleted(state.value)
      requires state.value.result.None? && state.value.time <= now
      modifies this
      ensures Valid() && base == old(base) && old(actions) <= actions
      ensures log == old(log) && roots == old(roots) && invocations == old(invocations) && state.Some?
      ensures ok && Holds() && InHand(driver, state.value) && Effective(state.value)
      ensures state.value.executor == old(state).value.executor && SameWork(old(state).value, state.value)
      ensures OutcomeSucceeds(state.value, state.value.executor.outcome, AtEnd(state.value, log), roots, g)
         <==> old(OutcomeSucceeds(state.value, state.value.executor.outcome, AtEnd(state.value, log), roots, g))
    {
      hide Run, Apply, Swaps, Next, Enabled, AfterWrite, CommitApplies, ReadableRun, PhaseEvents, OutcomeSucceeds, Sure;
      ghost var s := state.value;
      StateIsSure();
      SureIsValid(s, roots);
      ResultIsRecorded(driver, s, now);
      hide Succeeds, ValidState, Orderly;
      ok := Proceed(Command.RecordResult(now));
      ResultKeepsWork(s, now);
      SameWorkSameOutcome(s, state.value, s.executor.outcome, AtEnd(s, log), roots, g);
    }

    /** The second half of a recovery: the fenced lease is worth its root, if that is there as it was recorded. */
    method RecoverLease() returns (ok: bool)
      requires Valid() && Holds() && driver.note.Fenced?
      modifies this
      ensures Valid() && base == old(base) && old(actions) <= actions
      ensures state == old(state) && log == old(log) && roots == old(roots) && revision == old(revision)
      ensures invocations == old(invocations)
      ensures ok <==> SameFence(state.value, state.value) && RootFits(roots, state.value)
      ensures driver == if ok then old(driver).(owns := true, note := Nothing) else old(driver)
    {
      hide Run, Apply, ReadableRun, RootFits, SameFence;
      ghost var before := Durable();
      RecoverStepIs(before, driver);
      ok := SameFence(state.value, state.value) && RootFits(roots, state.value);
      if ok { driver := driver.(owns := true, note := Nothing); }
      Record(RecoverRoot(ME), before);
    }

    /** A resumed run that has a lease: reconcile, fence the previous epoch, take over its root, and go on from
        the executor record. A call that had started is never repeated, and without the root nothing goes on. */
    method ResumeLeased(instance: Id, now: Time, g: Given) returns (ok: bool)
      requires Valid() && state.Some? && (state.value.phase.Engineering? || state.value.phase.Verifying?)
      modifies this
      ensures Valid() && base == old(base) && old(actions) <= actions
      ensures old(log) <= log && state.Some?
      ensures ok <==> old(Reconcilable() && Resumes(Settled(state.value), roots, instance, now, g))
      ensures ok ==> Holds() && state.value.pending.None? && Ended(state.value.phase)
      ensures ok ==> Continues(old(state).value, g.outcome, state.value.phase)
      ensures ok && state.value.phase.Reviewing? ==> state.value.cancellation.None?
      ensures !old(state).value.executor.NotStarted? ==> invocations == old(invocations)
      ensures old(state).value.cancellation.Some? ==> invocations == old(invocations)
      ensures old(invocations) <= invocations && |invocations| <= |old(invocations)| + 1
    {
      hide Run, Apply, Swaps, Next, Enabled, AfterWrite, CommitApplies, ReadableRun, Moved, ReconciledLog, RootFits, SameFence;
      hide LeasedSucceeds, Succeeds, PhaseEvents;
      ghost var s := Settled(state.value);
      Resume();
      ok := ReconcilePending();
      if !ok { return; }
      if old(state).value.pending.Some? { DeliveredIsAtEnd(old(state).value, old(log), log); }
      if state.value.replay.Some? && !g.checks { return false; }
      RecoveryIsEnough(driver, s, roots, instance, now);
      ok := Proceed(ClaimRecovery(instance, now));
      if !ok { return; }
      RecoveryKeepsWork(s, instance, now);
      SameWorkSameSuccess(s, state.value, true, roots, g);
      ok := RecoverLease();
      if !ok { return; }
      ok := ContinueLeased(g);
    }

    /** With the lease in hand, what the executor record asks for. */
    method ContinueLeased(g: Given) returns (ok: bool)
      requires Valid() && Holds() && InHand(driver, state.value)
      requires state.value.phase.Engineering? || state.value.phase.Verifying?
      modifies this
      ensures Valid() && base == old(base) && old(actions) <= actions
      ensures old(log) <= log && state.Some?
      ensures ok <==> old(LeasedSucceeds(state.value, AtEnd(state.value, log), roots, g))
      ensures ok ==> Holds() && state.value.pending.None? && Ended(state.value.phase)
      ensures ok ==> Continues(old(state).value, g.outcome, state.value.phase)
      ensures ok && state.value.phase.Reviewing? ==> state.value.cancellation.None?
      ensures !old(state).value.executor.NotStarted? ==> invocations == old(invocations)
      ensures old(state).value.cancellation.Some? ==> invocations == old(invocations)
      ensures old(invocations) <= invocations && |invocations| <= |old(invocations)| + 1
    {
      hide Run, Apply, Swaps, Next, Enabled, AfterWrite, CommitApplies, ReadableRun, Moved, ReconciledLog;
      hide OutcomeSucceeds, Verifiable, Succeeds, PhaseEvents, Sure, SameWork;
      StateIsSure();
      VerifyingHasCompleted(state.value, roots);
      match state.value.executor {
        case Started(_, _) => ok := EndAttempt(Failed, ExecutorOutcomeUnknown);
        case NotStarted =>
          if state.value.cancellation.Some? {
            ok := EndAttempt(Cancelled, CancellationAccepted);
          } else {
            ok := CallAndContinue(g);
          }
        case OutcomeRecorded(_, _, _, _) =>
          if state.value.phase.Verifying? {
            ok := ResumeVerifying(g);
          } else {
            ok := ContinueAfterExecutor(g);
          }
      }
    }

    /** Calls the executor, and goes on from its outcome. */
    method CallAndContinue(g: Given) returns (ok: bool)
      requires Valid() && Holds() && InHand(driver, state.value) && state.value.phase.Engineering?
      requires state.value.executor.NotStarted? && state.value.cancellation.None?
      modifies this
      ensures Valid() && base == old(base) && old(actions) <= actions
      ensures old(log) <= log && state.Some?
      ensures ok <==> old(ValidOutcome(g.outcome, state.value.attempt, state.value.plan)
                          && OutcomeSucceeds(state.value, g.outcome, AtEnd(state.value, log), roots, g))
      ensures ok ==> Holds() && state.value.pending.None? && Ended(state.value.phase) && EndsAs(g.outcome, state.value.phase)
      ensures ok && state.value.phase.Reviewing? ==> state.value.cancellation.None?
      ensures old(invocations) <= invocations && |invocations| <= |old(invocations)| + 1
    {
      hide Run, Apply, Swaps, Next, Enabled, AfterWrite, CommitApplies, ReadableRun, Moved, ReconciledLog;
      hide OutcomeSucceeds, Succeeds, PhaseEvents, ValidOutcome;
      ghost var s := state.value;
      var startedAt := ReadClock(state.value.time);
      var recordedAt := ReadClock(startedAt);
      CallStarts(driver, s, startedAt);
      ok := InvokeExecutor(g.outcome, startedAt, recordedAt);
      if !ok { return; }
      CallKeepsWork(s, startedAt, g.outcome, recordedAt);
      SameWorkSameOutcome(s, state.value, g.outcome, AtEnd(s, log), roots, g);
      ok := ContinueAfterExecutor(g);
    }

    /** A resumed verification: admit what was observed, cancel what was not begun, or run the verifier again on a
        new copy of the root. */
    method ResumeVerifying(g: Given) returns (ok: bool)
      requires Valid() && Holds() && InHand(driver, state.value) && state.value.phase.Verifying?
      modifies this
      ensures Valid() && base == old(base) && old(actions) <= actions
      ensures old(log) <= log && invocations == old(invocations) && state.Some?
      ensures ok <==> g.checks && old(Verifiable(state.value, AtEnd(state.value, log), roots))
      ensures ok ==> Holds() && state.value.pending.None? && Ended(state.value.phase)
      ensures ok && state.value.phase.Reviewing? ==> state.value.cancellation.None?
      ensures ok ==> VerifiesAs(old(state).value, g.passed, state.value.phase)
    {
      hide Run, Apply, Swaps, Next, Enabled, AfterWrite, CommitApplies, ReadableRun, Moved, ReconciledLog, PhaseEvents;
      hide Succeeds, CanMove, CanClose, HasMoved;
      if !g.checks || state.value.verifier.None? { return false; }
      var now := ReadClock(state.value.time);
      if state.value.verifier.value.PublicationObserved? {
        ObservedIsAdmitted(driver, state.value, log, now);
        ok := AdmitObserved(now);
        return;
      }
      if state.value.verifier.value.VerifierNotStarted? && state.value.cancellation.Some? {
        UnverifiedCloses(driver, revision, state.value, log, now);
        ok := CloseAndTransition(Cancelled, CancellationAccepted, now);
        return;
      }
      if state.value.verifier.value.Admitted? || state.value.workspace.value.token !in roots { return false; }
      if state.value.verifier.value.VerifierNotStarted? {
        VerifierBegins(driver, state.value, now);
        ok := Proceed(StartVerifier(now));
        if !ok { return; }
      }
      if state.value.cancellation.Some? { return false; }
      ok := RunVerifier(g);
    }

    /** Creates the root of a new lease, under a name no root has. */
    method OpenRoot(root: Lease) returns (ok: bool)
      requires Valid()
      modifies this
      ensures Valid() && base == old(base) && old(actions) <= actions
      ensures state == old(state) && log == old(log) && invocations == old(invocations) && revision == old(revision)
      ensures ok ==> driver == old(driver).(note := Opened(root)) && roots == old(roots)[root.token := root.files]
      ensures ok <==> MayOpen(revision, state, old(roots), old(driver), root)
      ensures !ok ==> driver == old(driver) && roots == old(roots)
    {
      hide Run, Apply, ReadableRun, MayOpen;
      ghost var before := Durable();
      OpenStep(before, driver, root);
      ok := MayOpen(revision, state, roots, driver, root);
      if ok {
        roots := roots[root.token := root.files];
        driver := driver.(note := Opened(root));
      }
      Record(Action.OpenRoot(ME, root), before);
    }

    /** The compare-and-swap of the first install. */
    method InstallClaimed(plan: Plan, root: Lease, now: Time) returns (ok: bool)
      requires Valid() && driver.note == Opened(root)
      modifies this
      ensures Valid() && base == old(base) && actions == old(actions) + [Install(ME, plan, CursorOf(old(log)), now)]
      ensures log == old(log) && roots == old(roots) && invocations == old(invocations)
      ensures ok <==> old(Installs(revision, state, driver, plan, CursorOf(log), now))
      ensures !ok ==> state == old(state)
      ensures ok ==> old(state).None? && state == Some(Claimed(plan, root, CursorOf(log), now)) && Holds() && driver.owns
      ensures ok ==>
                && state.value.pending.Some? && committed == old(committed) + [state.value.pending.value]
                && FrozenMatches(state.value, state.value.pending.value)
    {
      hide Run, Apply, ReadableRun, Claimed, Installs, OutboxInv, FrozenMatches, PhaseEvents, Linked, SeenCursor;
      EveryRunKeepsOutbox(base, actions);
      ghost var before := Durable();
      OutboxLogIsReadable(before);
      LogIsLinked(log);
      LogEndIsSeen(log);
      var cursor := CursorOf(log);
      InstallIsAClaim(before, driver, plan, cursor, now);
      ok := Installs(revision, state, driver, plan, cursor, now);
      if ok {
        InstallsOnce(revision, state, driver, plan, cursor, now);
        var n := Claimed(plan, root, cursor, now);
        revision := revision + 1;
        state := Some(n);
        driver := Driver(revision, Some(n), true, Nothing);
        committed := committed + [n.pending.value];
      }
      Record(Install(ME, plan, cursor, now), before);
    }

    /** Installs the claimed state and its event in one write, then delivers the event. */
    method ClaimFresh(plan: Plan, root: Lease, now: Time) returns (ok: bool)
      requires Valid() && state.None?
      modifies this
      ensures Valid() && base == old(base) && old(actions) <= actions
      ensures old(log) <= log && invocations == old(invocations)
      ensures ok ==> Holds() && state.value.pending.None? && state.value.executor.NotStarted? && state.value.cancellation.None?
      ensures ok <==> old(root.token !in roots && Claimable(plan, root, CursorOf(log), now))
      ensures ok ==>
                var claimed := Claimed(plan, root, CursorOf(old(log)), now);
                && claimed.pending.Some? && state == Some(Cleared(claimed)) && log == old(log) + [claimed.pending.value]
                && state.value.plan == plan && state.value.phase.Engineering?
                && driver.owns && AtEnd(state.value, log) && roots == old(roots)[root.token := root.files]
    {
      hide Run, Apply, ReadableRun, Claimed, ReconciledLog, OutboxInv, MayOpen, Claimable, Installs;
      Resume();
      OpensIff(revision, roots, driver, root);
      ok := OpenRoot(root);
      if !ok { return; }
      InstallsIff(revision, driver, plan, root, CursorOf(log), now);
      EveryRunKeepsOutbox(base, actions);
      ghost var before := Durable();
      ok := InstallClaimed(plan, root, now);
      if !ok { return; }
      ClaimedShape(plan, root, CursorOf(log), now);
      EveryRunKeepsOutbox(base, actions);
      ghost var after := Durable();
      FirstEventIsAppended(before, after, after.state.value);
      ok := ReconcilePending();
      DeliveredIsAtEnd(after.state.value, after.log, log);
    }

    /** A run from nothing: claim, call the executor, and go on from its outcome. */
    method DriveFresh(plan: Plan, root: Lease, now: Time, g: Given) returns (ok: bool)
      requires Valid() && state.None?
      modifies this
      ensures Valid() && base == old(base) && old(actions) <= actions
      ensures old(log) <= log && old(invocations) <= invocations && |invocations| <= |old(invocations)| + 1
      ensures ok <==> old(root.token !in roots && Claimable(plan, root, CursorOf(log), now)) && AttemptSucceeds(plan, 1, g)
      ensures ok ==> Holds() && state.value.pending.None? && Ended(state.value.phase)
      ensures ok ==> EndsAs(g.outcome, state.value.phase)
      ensures ok && state.value.phase.Reviewing? ==> state.value.cancellation.None?
    {
      hide Run, Apply, Swaps, Next, Enabled, AfterWrite, CommitApplies, ReadableRun, Moved, ReconciledLog, PhaseEvents;
      hide Claimed, Claimable, LeasedSucceeds, AttemptSucceeds, Cleared;
      ok := ClaimFresh(plan, root, now);
      if !ok { return; }
      ClaimIsFresh(plan, root, CursorOf(old(log)), now);
      FreshSucceeds(state.value, roots, g);
      ok := ContinueLeased(g);
    }

    /** The next attempt: a new root with the same initial files, claimed with its event in one write. A
        cancelled run ends here instead, and a root that is still there makes it wait. */
    method ResumeRetryPending(root: Lease, now: Time, g: Given) returns (ok: bool)
      requires Valid() && Holds() && state.value.pending.None? && state.value.phase.RetryPending?
      modifies this
      ensures Valid() && base == old(base) && old(actions) <= actions
      ensures old(log) <= log && old(invocations) <= invocations && |invocations| <= |old(invocations)| + 1
      ensures ok <==>
                old(if state.value.cancellation.Some? then AtEnd(state.value, log)
                    else
                      || RootIsThere(state.value, roots)
                      || (&& root.token !in roots && AtEnd(state.value, log) && Retries(state.value, root, now)
                          && AttemptSucceeds(state.value.plan, state.value.attempt + 1, g)))
      ensures ok ==> Holds() && state.value.pending.None? && Ended(state.value.phase)
      ensures ok && old(state).value.cancellation.Some? ==>
                state.value.phase.Cancelled? && invocations == old(invocations)
      ensures ok && old(state).value.cancellation.None? ==>
                if old(RootIsThere(state.value, roots)) then state == old(state) && log == old(log)
                else EndsAs(g.outcome, state.value.phase)
      ensures ok && state.value.phase.Reviewing? ==> state.value.cancellation.None?
    {
      hide Run, Apply, Swaps, Next, Enabled, AfterWrite, CommitApplies, ReadableRun, Moved, ReconciledLog, PhaseEvents;
      hide Succeeds, CanMove, Sure, AttemptSucceeds, Retries, HasMoved;
      if state.value.cancellation.Some? {
        var at := ReadClock(state.value.time);
        WaitingIsCancelled(driver, state.value, log, at);
        ok := Finish(Cancelled, CancellationAccepted, at);
        return;
      }
      StateIsSure();
      WaitingHasWorkspace(state.value, roots);
      if state.value.workspace.value.token in roots { return true; }
      ok := OpenRoot(root);
      if !ok { return; }
      ok := RetryFrom(root, now, g);
    }

    /** Claims the next attempt on its new root. */
    method RetryFrom(root: Lease, now: Time, g: Given) returns (ok: bool)
      requires Valid() && Holds() && state.value.pending.None? && state.value.phase.RetryPending?
      requires driver.note == Opened(root) && root.token in roots
      modifies this
      ensures Valid() && base == old(base) && old(actions) <= actions
      ensures old(log) <= log && old(invocations) <= invocations && |invocations| <= |old(invocations)| + 1
      ensures ok <==> old(AtEnd(state.value, log) && Retries(state.value, root, now)
                          && AttemptSucceeds(state.value.plan, state.value.attempt + 1, g))
      ensures ok ==> Holds() && state.value.pending.None? && Ended(state.value.phase) && EndsAs(g.outcome, state.value.phase)
      ensures ok && state.value.phase.Reviewing? ==> state.value.cancellation.None?
    {
      hide Run, Apply, Swaps, Next, Enabled, AfterWrite, CommitApplies, ReadableRun, Moved, ReconciledLog, PhaseEvents;
      hide Succeeds, AttemptSucceeds, Retries, LeasedSucceeds, Cleared;
      ghost var s := state.value;
      RetrySucceedsIff(driver, s, root, now);
      ok := ReplaceWithEvent(ClaimRetry(root, now));
      if !ok { return; }
      ghost var n, before := state.value, log;
      RetryStartsOver(s, root, now);
      RetryIsFresh(s, root, now);
      ok := ReconcilePending();
      if !ok { return; }
      DeliveredIsAtEnd(n, before, log);
      FreshSucceeds(state.value, roots, g);
      ok := ContinueLeased(g);
    }
  }

  lemma ReconciledLogExtends(s: EvState, log: seq<RunEvent>)
    requires s.pending.Some? && ReconciledLog(s, log).Some?
    ensures log <= ReconciledLog(s, log).value
  {
    hide FrozenMatches, ReadableLog;
  }

  lemma ClearIsCleared(s: EvState, driver: Driver, revision: int)
    requires Enabled(s, ClearPending)
    ensures s.pending.Some? && Next(s, ClearPending) == Cleared(s)
    ensures AfterWrite(driver, revision, Cleared(s), ClearPending) == Driver(revision, Some(Cleared(s)), driver.owns, Nothing)
  {
  }

  lemma ClearSucceeds(s: EvState, driver: Driver)
    requires s.pending.Some? && driver.note.Confirmed?
    ensures Succeeds(driver, s, ClearPending)
  {
  }

  predicate Moves(cmd: Command) { cmd.Transition? || cmd.Admit? || cmd.ClaimRetry? }

  /** Commands that do not hand the lease to the driver. */
  predicate Holding(cmd: Command) { !cmd.ClaimRecovery? && !cmd.ClaimRetry? }

  lemma MovesAttach(s: EvState, cmd: Command, driver: Driver, revision: int)
    requires Enabled(s, cmd) && Moves(cmd)
    ensures var n := Next(s, cmd);
            && s.pending.None? && n.pending.Some? && n.projected == s.projected
            && NewEvents(s, n) == [n.pending.value]
            && (Holding(cmd) ==> AfterWrite(driver, revision, n, cmd).owns == driver.owns)
  {
  }

  lemma TransitionIsMoved(s: EvState, to: Phase, trigger: Trigger, now: Time)
    requires Enabled(s, Transition(to, trigger, now))
    ensures Next(s, Transition(to, trigger, now)) == Moved(s, to, trigger, now)
  {
  }

  lemma StartedMayInvoke(s: EvState, now: Time, driver: Driver, revision: int)
    requires Enabled(s, StartExecutor(now))
    ensures var n := Next(s, StartExecutor(now));
            && n.attempt == s.attempt && n.pending == s.pending && n.executor.Started? && s.executor.NotStarted? && s.cancellation.None?
            && AfterWrite(driver, revision, n, StartExecutor(now)) == Driver(revision, Some(n), driver.owns, MayInvoke)
  {
  }

  /** The store takes an outcome that the kernel finds valid, except a completion without an open workspace. */
  predicate Recordable(s: EvState, outcome: Outcome, startedAt: Time, recordedAt: Time) {
    startedAt <= recordedAt && ValidOutcome(outcome, s.attempt, s.plan) && !(Closed(s) && outcome.Completed?)
  }

  lemma OutcomeSucceedsIff(
      s: EvState, startedAt: Time, outcome: Outcome, recordedAt: Time, first: Driver, driver: Driver)
    requires Succeeds(first, s, StartExecutor(startedAt)) && (first.owns ==> driver.owns) && driver.note == Answered(outcome)
    ensures Succeeds(driver, Next(s, StartExecutor(startedAt)), RecordOutcome(outcome, recordedAt))
            <==> Recordable(s, outcome, startedAt, recordedAt)
  {
    hide ValidOutcome;
  }

  lemma RecordedByOwner(s: EvState, outcome: Outcome, now: Time, driver: Driver, revision: int)
    requires Enabled(s, RecordOutcome(outcome, now))
    ensures var n := Next(s, RecordOutcome(outcome, now));
            && n.executor.OutcomeRecorded? && n.executor.outcome == outcome && n.pending == s.pending
            && n.phase == s.phase && n.phase.Engineering?
            && AfterWrite(driver, revision, n, RecordOutcome(outcome, now)) == Driver(revision, Some(n), driver.owns, Nothing)
  {
  }

  lemma RequestSucceedsIff(s: EvState, request: Id, now: Time, driver: Driver)
    requires s.pending.None? && !Terminal(s.phase) && s.cancellation.None?
    ensures Succeeds(driver, s, RequestCancellation(request, now)) <==> s.time <= now
  {
  }

  lemma RequestIsRecorded(s: EvState, request: Id, now: Time)
    requires Enabled(s, RequestCancellation(request, now))
    ensures var n := Next(s, RequestCancellation(request, now));
            n.cancellation == Some(Cancellation(request, now)) && n.phase == s.phase
  {
  }

  lemma AfterWriteHolds(driver: Driver, revision: int, n: EvState, cmd: Command)
    ensures var after := AfterWrite(driver, revision, n, cmd);
            && after.revision == revision && after.state == Some(n)
            && after.owns == ((driver.owns && !cmd.ClaimRecovery?) || cmd.ClaimRetry?)
            && (after.note.Fenced? <==> cmd.ClaimRecovery?)
  {
  }

  predicate EffectWrite(cmd: Command) {
    || cmd.PrepareWrite? || cmd.RecordReceipt? || cmd.RecordReconciled? || cmd.MarkCleanup? || cmd.DropPrepared?
  }

  predicate EffectFollows(s: EvState, cmd: Command, n: EvState, ok: bool) {
    if !ok then n == s
    else
      && n.plan == s.plan && n.phase == s.phase && n.pending.None? && s.pending.None?
      && n.cancellation == s.cancellation && s.ledger <= n.ledger
      && |n.ledger| == |s.ledger| + (if cmd.RecordReceipt? || cmd.RecordReconciled? then 1 else 0)
  }

  lemma EffectWritesFollow(s: EvState, cmd: Command)
    requires Enabled(s, cmd) && EffectWrite(cmd)
    ensures EffectFollows(s, cmd, Next(s, cmd), true)
  {
  }

  /** What the driver knows after its write. */
  predicate NotedBy(cmd: Command, note: Note) {
    && (cmd.RecordReceipt? && cmd.denied ==> note.SawDenial?)
    && (cmd.RecordReconciled? ==> note.SawReconciled?)
  }

  lemma EffectWritesTell(driver: Driver, revision: int, n: EvState, cmd: Command)
    requires EffectWrite(cmd)
    ensures var after := AfterWrite(driver, revision, n, cmd); after.owns == driver.owns && NotedBy(cmd, after.note)
  {
  }

  /** A root that is there holds the files last recorded, as the broker wants them before it acts. */
  predicate RootHolds(s: EvState, roots: map<Id, seq<File>>) {
    RootIsThere(s, roots) ==> roots[s.workspace.value.token] == s.workspace.value.current.files
  }

  lemma CurrentRootHolds(s: EvState, roots: map<Id, seq<File>>)
    requires Sure(s, roots) && s.workspace.Some? && !s.workspace.value.closed && s.prepared.None?
    ensures RootHolds(s, roots)
  {
    hide Sure;
    if RootIsThere(s, roots) { RootIsCurrent(s, roots); }
  }

  /** A write found made is the last effect, in a root that is there. */
  lemma FoundMade(s: EvState, roots: map<Id, seq<File>>)
    requires Sure(s, roots) && s.phase.Engineering?
    ensures Found(s, roots) == Some(IntendedAfter) ==> RootIsThere(s, roots) && |s.ledger| + 1 == |s.plan.effects|
  {
    if s.prepared.Some? { PreparedIsLast(s); }
    hide Sure;
  }

  lemma FoundBefore(s: EvState, roots: map<Id, seq<File>>)
    requires s.prepared.Some? && s.workspace.Some? && s.prepared.value.before == s.workspace.value.current
    requires InspectRoot(roots, s.workspace.value, s.prepared.value).ExpectedBefore?
    ensures RootHolds(s, roots)
  {
  }

  lemma NextWrite(s: EvState)
    requires Effective(s) && |s.ledger| < |s.plan.effects| && s.plan.effects[|s.ledger|].WriteFile?
    ensures NextIsWrite(s)
  {
  }

  lemma NextRead(s: EvState)
    requires Effective(s) && |s.ledger| < |s.plan.effects| && s.plan.effects[|s.ledger|].ReadFile?
    ensures !NextIsWrite(s)
  {
  }

  lemma AnswersIff(revision: int, s: EvState, roots: map<Id, seq<File>>, driver: Driver, denied: bool)
    requires driver.revision == revision && driver.state == Some(s) && InHand(driver, s) && s.phase.Engineering?
    requires NextEffect(s) && s.cancellation.None? && (NextIsWrite(s) <==> s.prepared.Some?) && RootHolds(s, roots)
    ensures Answers(revision, Some(s), roots, driver, denied) <==> denied || RootIsThere(s, roots)
  {
    hide NextEffect, NextIsWrite;
  }

  /** The loop did nothing yet, or it resolved effects, none of them denied, and the root is there. */
  predicate Advanced(s: EvState, before: map<Id, seq<File>>, n: EvState, roots: map<Id, seq<File>>) {
    || (n == s && roots == before)
    || (&& |s.ledger| < |s.plan.effects| && n.cancellation.None? && n.prepared.None? && !LastDenied(n)
        && RootIsThere(n, roots) && n.replay == s.replay)
  }

  lemma NothingAdvanced(s: EvState, roots: map<Id, seq<File>>)
    ensures Advanced(s, roots, s, roots)
  {
  }

  lemma StillAdvances(
      s: EvState, before: map<Id, seq<File>>, m: EvState, rooted: map<Id, seq<File>>, n: EvState, roots: map<Id, seq<File>>)
    requires Advanced(s, before, m, rooted) && Resolves(m, n) && |m.ledger| < |m.plan.effects|
    requires n.cancellation.None? && RootIsThere(n, roots)
    ensures Advanced(s, before, n, roots)
  {
  }

  lemma LedgerFits(s: EvState, roots: map<Id, seq<File>>)
    requires Sure(s, roots)
    ensures |s.ledger| <= |s.plan.effects|
  {
  }

  lemma WorkedSucceeds(s: EvState, atEnd: bool, roots: map<Id, seq<File>>, denial: Option<int>)
    requires |s.ledger| == |s.plan.effects|
    ensures EffectsSucceed(s, atEnd, roots, denial) && !EffectsLeave(s, roots, denial)
  {
  }

  /** Where the loop stops before the broker is called. */
  lemma StoppedSucceeds(s: EvState, atEnd: bool, roots: map<Id, seq<File>>, denial: Option<int>)
    requires |s.ledger| < |s.plan.effects|
    ensures s.prepared.None? && s.cancellation.Some? ==>
              (EffectsSucceed(s, atEnd, roots, denial) <==> atEnd) && EffectsLeave(s, roots, denial)
    ensures Found(s, roots) == Some(IntendedAfter) && LastDenied(s) ==> !EffectsSucceed(s, atEnd, roots, denial)
    ensures Found(s, roots) == Some(IntendedAfter) && !LastDenied(s) && s.cancellation.Some? ==>
              (EffectsSucceed(s, atEnd, roots, denial) <==> atEnd) && EffectsLeave(s, roots, denial)
    ensures Found(s, roots) == Some(ExpectedBefore) && s.cancellation.Some? ==> !EffectsSucceed(s, atEnd, roots, denial)
    ensures Found(s, roots) == Some(Missing) || Found(s, roots) == Some(ThirdState) ==>
              (EffectsSucceed(s, atEnd, roots, denial) <==> atEnd) && EffectsLeave(s, roots, denial)
  {
    hide InspectRoot;
  }

  lemma SameLedgerSameDenial(s: EvState, n: EvState)
    requires n.ledger == s.ledger
    ensures LastDenied(n) <==> LastDenied(s)
  {
  }

  /** After a transition the log ends where the state says. */
  lemma TransitionEndsTheLog(
      s: EvState, before: seq<RunEvent>, log: seq<RunEvent>, to: Phase, trigger: Trigger, now: Time)
    requires var moved := Moved(s, to, trigger, now); moved.pending.Some? && log == before + [moved.pending.value]
    ensures AtEnd(Cleared(Moved(s, to, trigger, now)), log)
  {
  }

  lemma OutcomeUnfolds(s: EvState, outcome: Outcome, atEnd: bool, roots: map<Id, seq<File>>, g: Given)
    requires outcome.Completed?
    ensures OutcomeSucceeds(s, outcome, atEnd, roots, g)
        <==> && EffectsSucceed(s, atEnd, roots, g.denial)
             && (|| EffectsLeave(s, roots, g.denial)
                 || (g.checks && atEnd && (|s.ledger| == |s.plan.effects| ==> SealReady(s, roots, g.inputs, g.chosen))))
  {
    hide EffectsSucceed, EffectsLeave, SealReady;
  }

  lemma AdvancedIsReady(s: EvState, before: map<Id, seq<File>>, n: EvState, roots: map<Id, seq<File>>, g: Given)
    requires Advanced(s, before, n, roots) && |s.ledger| <= |s.plan.effects|
    requires |s.ledger| < |s.plan.effects| ==> |n.ledger| == |n.plan.effects| && n.plan == s.plan && s.replay.None?
    ensures if |s.ledger| == |s.plan.effects| then
              SealReady(n, roots, g.inputs, g.chosen) <==> SealReady(s, before, g.inputs, g.chosen)
            else SealReady(n, roots, g.inputs, g.chosen)
  {
    hide BuildBridge;
  }

  lemma UnsealedYet(s: EvState, roots: map<Id, seq<File>>)
    requires Sure(s, roots) && s.phase.Engineering?
    ensures |s.ledger| <= |s.plan.effects| && (|s.ledger| < |s.plan.effects| ==> s.replay.None?)
  {
    assert ValidAttempt(s);
  }

  lemma ResultIsRecorded(driver: Driver, s: EvState, now: Time)
    requires InHand(driver, s) && s.phase.Engineering? && HasCompleted(s) && s.result.None? && s.time <= now
    ensures Succeeds(driver, s, Command.RecordResult(now)) && Enabled(s, Command.RecordResult(now))
  {
  }

  lemma VerifyingHasCompleted(s: EvState, roots: map<Id, seq<File>>)
    requires Sure(s, roots)
    ensures s.phase.Verifying? ==> HasCompleted(s)
  {
  }

  lemma CallStarts(driver: Driver, s: EvState, now: Time)
    requires InHand(driver, s) && s.phase.Engineering? && s.executor.NotStarted? && s.cancellation.None? && s.time <= now
    ensures Succeeds(driver, s, StartExecutor(now))
  {
  }

  lemma WaitingHasWorkspace(s: EvState, roots: map<Id, seq<File>>)
    requires Sure(s, roots) && s.phase.RetryPending?
    ensures s.workspace.Some? && Closed(s)
  {
  }

  lemma MovedKeepsTheLedger(s: EvState, to: Phase, trigger: Trigger, now: Time)
    ensures var moved := Moved(s, to, trigger, now);
            && moved.pending.Some? && Cleared(moved).phase == to && Cleared(moved).pending.None?
            && Cleared(moved).plan == s.plan == moved.plan && Cleared(moved).ledger == s.ledger == moved.ledger
  {
  }

  /** A driven run ends in a terminal phase, or waits for its next attempt. */
  predicate Ended(phase: Phase) { Terminal(phase) || phase.RetryPending? }

  lemma RemoveStep(w: World, driver: Driver, token: Id)
    requires w.drivers == map[ME := driver]
    ensures Apply(w, RemoveRoot(token))
         == if driver.note.Opened? && driver.note.root.token == token then w else w.(roots := w.roots - {token})
  {
    assert ME in w.drivers;
  }

  lemma CloseCloses(s: EvState)
    requires Enabled(s, CloseWorkspace)
    ensures s.workspace.Some? && Next(s, CloseWorkspace) == ClosedState(s)
    ensures var n := ClosedState(s); Closed(n) && n.pending == s.pending && n.phase == s.phase
  {
  }

  lemma MovedKeepsTheWorkspace(s: EvState, to: Phase, trigger: Trigger, now: Time)
    ensures var moved := Moved(s, to, trigger, now);
            moved.pending.Some? && moved.workspace == s.workspace == Cleared(moved).workspace
  {
  }

  lemma AdmitReaches(s: EvState, now: Time)
    requires Enabled(s, Admit(now))
    ensures var n := Next(s, Admit(now));
            && n.pending.Some? && n.phase.Reviewing? && n.cancellation.None?
            && Cleared(n).phase.Reviewing? && Cleared(n).cancellation.None?
  {
  }

  /** Where an attempt ends after its outcome: only a completed one goes on to the effects and the verifier. */
  predicate EndsAs(outcome: Outcome, phase: Phase) {
    match outcome
    case ExecutorRetry(_, _) => phase.RetryPending?
    case ExecutorFailed(_) => phase.Failed?
    case ExecutorTimedOut(_) => phase.Failed?
    case ExecutorCancelled(_) => phase.Cancelled?
    case Completed(_) => phase.Reviewing? || phase.Failed? || phase.Cancelled?
  }

  lemma RecoverStepIs(w: World, driver: Driver)
    requires w.drivers == map[ME := driver] && driver.state == w.state && w.state.Some? && driver.note.Fenced?
    ensures Apply(w, RecoverRoot(ME))
         == if SameFence(w.state.value, w.state.value) && RootFits(w.roots, w.state.value) then
              Alone(w.revision, w.state, w.log, w.roots, driver.(owns := true, note := Nothing), w.committed, w.invocations)
            else w
  {
    hide RootFits, SameFence;
  }

  predicate PlainWrite(cmd: Command) {
    || cmd.RecordResult? || cmd.RecordReplay? || cmd.StartVerifier? || cmd.Observe? || cmd.ClaimRecovery?
  }

  lemma PlainWritesStay(s: EvState, cmd: Command)
    requires Enabled(s, cmd) && PlainWrite(cmd)
    ensures var n := Next(s, cmd);
            n.phase == s.phase && n.executor == s.executor && n.pending == s.pending && n.cancellation == s.cancellation
  {
  }

  lemma OutboxLogIsReadable(w: World)
    requires OutboxInv(w)
    ensures ReadableRun(w.log)
    ensures w.state.None? ==> w.committed == [] && PhaseEvents(w.log) == []
  {
    hide ReadableRun;
  }

  lemma ClaimedShape(plan: Plan, root: Lease, cursor: Option<Cursor>, now: Time)
    ensures var n := Claimed(plan, root, cursor, now);
            && n.pending.Some? && n.phase.Engineering? && n.plan == plan && n.executor.NotStarted?
            && n.projected == cursor && n.cancellation.None?
  {
  }

  /** A run may be claimed: its write changes something, and the claimed state is valid. */
  predicate Claimable(plan: Plan, root: Lease, cursor: Option<Cursor>, now: Time) {
    !TargetMatches(plan, root.files) && ValidInitialInstall(Claimed(plan, root, cursor, now))
  }

  lemma OpensIff(revision: int, roots: map<Id, seq<File>>, driver: Driver, root: Lease)
    requires driver.revision == revision && driver.state.None?
    ensures MayOpen(revision, None, roots, driver, root) <==> root.token !in roots
  {
  }

  lemma InstallsIff(revision: int, driver: Driver, plan: Plan, root: Lease, cursor: Option<Cursor>, now: Time)
    requires driver.revision == revision && driver.state.None? && driver.note == Opened(root)
    ensures Installs(revision, None, driver, plan, cursor, now) <==> Claimable(plan, root, cursor, now)
  {
    hide TargetMatches, ValidInitialInstall, Claimed;
  }

  /** The first phase event of a run is appended where the log ended. */
  lemma FirstEventIsAppended(before: World, after: World, n: EvState)
    requires OutboxInv(before) && before.state.None?
    requires OutboxInv(after) && after.state == Some(n) && n.pending.Some? && after.log == before.log
    requires after.committed == before.committed + [n.pending.value]
    requires FrozenMatches(n, n.pending.value) && CursorOf(after.log) == n.projected
    ensures ReconciledLog(n, after.log) == Some(before.log + [n.pending.value])
  {
    assert PhaseEvents(before.log) == before.committed;
    hide FrozenMatches;
    PendingCanBeReconciled(after, n);
  }

  lemma RetryStartsOver(s: EvState, root: Lease, now: Time)
    requires Enabled(s, ClaimRetry(root, now))
    ensures var n := Next(s, ClaimRetry(root, now));
            n.pending.Some? && n.executor.NotStarted? && n.cancellation.None?
  {
  }

  lemma InstallsOnce(revision: int, state: Option<EvState>, driver: Driver, plan: Plan, cursor: Option<Cursor>, now: Time)
    requires Installs(revision, state, driver, plan, cursor, now)
    ensures state.None?
    ensures var n := Claimed(plan, driver.note.root, cursor, now);
            n.pending.Some? ==> FrozenMatches(n, n.pending.value)
  {
    var n := Claimed(plan, driver.note.root, cursor, now);
    if n.pending.Some? { ClaimedEventIsFrozen(n); }
    hide ValidInitialInstall, Claimed, FrozenMatches;
  }

  lemma LogIsLinked(log: seq<RunEvent>)
    requires ReadableRun(log)
    ensures Linked(log)
  {
    hide Linked, ValidPhaseEvent;
  }
}
