/** Three small plans and one driver on the log of a new run: how a run goes through to Reviewing, in one attempt
    or in two, and how a run gets into each of the states it cannot leave. */
module EngineerVerifierExamples {
  import opened Common
  import opened WorkspaceFiles
  import opened RuntimeTypes
  import opened EngineerVerifierKernel
  import opened EngineerVerifierCommands
  import opened EngineerVerifierRuns
  import opened EngineerVerifierOutbox
  import opened EngineerVerifierAgreement
  import opened EngineerVerifierTerminal
  import opened EngineerVerifierStuck
  import opened EngineerVerifierSuccess
  import opened EngineerVerifierLoop
  import Endings = EngineerVerifierEndings
  import Continuations = EngineerVerifierContinuations
  import ReviewProjection
  import Replay
  import GoalRuntime

  type Roots = map<Id, seq<File>>

  const NOW: Time := 10
  const ROOT := Lease(4, 6, 0, 100, [], 8, 1)
  const FILE := File(5, 9)
  const EMPTY: Roots := map[4 := []]
  const WROTE: Roots := map[4 := [FILE]]
  const RESULT := RoleResult(11, 1, true)
  const FAILURE := RoleResult(12, 1, false)
  const BEFORE := Snapshot(6, 0, [])
  const AFTER := Snapshot(6, 1, [FILE])
  const READY := Workspace(4, 6, 1, 0, 100, BEFORE, BEFORE, 8, 1, 1, NOW, 1, false, false)
  const DONE := READY.(current := AFTER, nextReceipt := 2)
  const PREPARED := Prepared(0, 7, 1, BEFORE, AFTER, FILE, 1, NOW)
  const WRITTEN := Entry(0, 7, 1, WriteApplied, Some(Receipt(7, 1, BEFORE, AFTER)), None, BEFORE, AFTER)

  /** One write. */
  const PLAN := Plan(1, 2, 3, 1, [WriteFile(7, 5, 9)])
  /** A read, and then a write. */
  const READING := Plan(1, 2, 3, 1, [ReadFile(6, 5), WriteFile(7, 5, 9)])
  /** One write, in two attempts. */
  const TWICE := Plan(1, 2, 3, 2, [WriteFile(7, 5, 9)])

  // ---------------------------------------------------------------- the new run

  const STAMPS := [GoalRuntime.Stamp(Named(100), NOW), GoalRuntime.Stamp(Named(101), NOW),
                   GoalRuntime.Stamp(Named(102), NOW), GoalRuntime.Stamp(Named(103), NOW)]
  /** The decisions its evidence supports. */
  const CLAIM := CompletionClaim([50], [], [], [])
  const REVIEW := ReviewDecision(30, Pass, NOW, [])
  const AUDIT := AuditDecision(31, 30, Pass, NOW, [])
  const GOAL := Replay.Goal(1, true, true, 1, false, [], false, [], [], {(CLAIM, [50], REVIEW)}, {(CLAIM, [50], REVIEW, AUDIT)})
  /** The log of the run, planned and not yet claimed. */
  const BASE := GoalRuntime.PlannedEvents(GOAL, [2], [[2]], STAMPS)
  const CREATED := Some(Cursor(3, Named(103)))

  lemma BaseIsFresh()
    ensures |BASE| == 4 && CursorOf(BASE) == CREATED && LastId(BASE) == Some(Named(103))
    ensures ReadableRun(BASE) && PhaseEvents(BASE) == [] && UniqueIds(BASE)
    ensures forall plan: Plan :: plan.goal == 1 && plan.task == 2 ==> GoodHead(BASE, plan)
  {
    forall i | 0 <= i < 4 ensures LinkedAt(BASE, i) {
      if i > 0 { assert BASE[..i][i - 1] == BASE[i - 1]; }
    }
    assert BASE[..3][..2] == BASE[..2] && BASE[..2][..1] == BASE[..1] && BASE[..1][..0] == [];
    assert PhaseEvents(BASE[..1]) == [];
    assert PhaseEvents(BASE[..2]) == [];
    assert PhaseEvents(BASE[..3]) == [];
  }

  /** The world after the actions: the driver holds the present state, and the events of its transitions were
      delivered after those of the new run. */
  ghost predicate Stands(actions: seq<Action>, s: EvState, note: Note, events: seq<RunEvent>, roots: Roots) {
    var w := Run(Start(BASE), actions);
    w == Alone(w.revision, Some(s), BASE + events, roots, Driver(w.revision, Some(s), true, note), events, w.invocations)
  }

  // ---------------------------------------------------------------- steps

  /** The write succeeds and leads to `n`, leaving the driver with `after`. */
  predicate Leads(s: EvState, note: Note, cmd: Command, n: EvState, after: Note) {
    && Succeeds(Driver(0, None, true, note), s, cmd) && Next(s, cmd) == n
    && AfterWrite(Driver(0, None, true, note), 0, n, cmd) == Driver(0, Some(n), true, after)
  }

  lemma LeadsForAll(s: EvState, note: Note, cmd: Command, n: EvState, after: Note, driver: Driver, revision: int)
    requires Leads(s, note, cmd, n, after) && driver.owns && driver.note == note
    ensures Enabled(s, cmd) && Next(s, cmd) == n && Succeeds(driver, s, cmd)
    ensures AfterWrite(driver, revision, n, cmd) == Driver(revision, Some(n), true, after)
  {
    hide Enabled, Next, Refused;
  }

  lemma Commits(
      actions: seq<Action>, s: EvState, note: Note, events: seq<RunEvent>, roots: Roots, cmd: Command, n: EvState,
      after: Note)
    requires Stands(actions, s, note, events, roots) && Leads(s, note, cmd, n, after)
    requires s.pending.None? && n.pending.None?
    ensures Stands(actions + [Commit(ME, cmd)], n, after, events, roots)
  {
    hide Run, Apply, Next, Enabled, Refused, Succeeds, Swaps, Leads, AfterWrite, GoalRuntime.PlannedEvents;
    var w := Run(Start(BASE), actions);
    var driver := w.drivers[ME];
    LeadsForAll(s, note, cmd, n, after, driver, w.revision + 1);
    SwapSucceeds(BASE, actions, driver, cmd);
    SwapIsACommit(w, driver, cmd);
    RunAppend(Start(BASE), actions, Commit(ME, cmd));
    assert events + [] == events;
  }

  lemma Delivers(actions: seq<Action>, w: World, n: EvState, log: seq<RunEvent>)
    requires w == Run(Start(BASE), actions) && n.pending.Some?
    requires w == Alone(w.revision, Some(n), log, w.roots, Driver(w.revision, Some(n), true, Nothing), w.committed,
                    w.invocations)
    requires ReconciledLog(n, log) == Some(log + [n.pending.value])
    ensures var v := Run(Start(BASE), actions + [Confirm(ME), Commit(ME, ClearPending)]);
            && v == Alone(v.revision, Some(Cleared(n)), log + [n.pending.value], w.roots,
                      Driver(v.revision, Some(Cleared(n)), true, Nothing), w.committed, v.invocations)
  {
    hide Run, Apply, Next, Enabled, Refused, ReconciledLog;
    var confirmed := actions + [Confirm(ME)];
    ConfirmIsReconciled(w, w.drivers[ME]);
    RunAppend(Start(BASE), actions, Confirm(ME));
    var v := Run(Start(BASE), confirmed);
    var driver := v.drivers[ME];
    ClearSucceeds(n, driver);
    SwapSucceeds(BASE, confirmed, driver, ClearPending);
    SwapIsACommit(v, driver, ClearPending);
    RunAppend(Start(BASE), confirmed, Commit(ME, ClearPending));
    ClearIsCleared(n, driver, v.revision + 1);
    ClearAddsNothing(n);
    assert confirmed + [Commit(ME, ClearPending)] == actions + [Confirm(ME), Commit(ME, ClearPending)];
  }

  lemma ClearAddsNothing(n: EvState)
    requires n.pending.Some?
    ensures NewEvents(n, Cleared(n)) == []
  {
  }

  lemma Attaches(
      actions: seq<Action>, s: EvState, note: Note, events: seq<RunEvent>, roots: Roots, cmd: Command, n: EvState)
    requires Stands(actions, s, note, events, roots) && Leads(s, note, cmd, n, Nothing) && Moves(cmd)
    requires s.pending.None? && events != [] && CursorOf(events) == s.projected
    ensures n.pending.Some? && ReconciledLog(n, BASE + events) == Some(BASE + events + [n.pending.value])
    ensures var v := Run(Start(BASE), actions + [Commit(ME, cmd)]);
            v == Alone(v.revision, Some(n), BASE + events, roots, Driver(v.revision, Some(n), true, Nothing),
                   events + [n.pending.value], v.invocations)
  {
    hide Run, Apply, Next, Enabled, Refused, OutboxInv, ReconciledLog, FrozenMatches, ValidSuccessor, NewEvents, AfterWrite;
    hide Succeeds, Swaps, Accepted, Leads, GoalRuntime.PlannedEvents, ReadableRun, UniqueIds, PhaseEvents, GoodHead;
    var w := Run(Start(BASE), actions);
    var driver := w.drivers[ME];
    LeadsForAll(s, note, cmd, n, Nothing, driver, w.revision + 1);
    MovesAttach(s, cmd, driver, w.revision + 1);
    AcceptedBySuccess(actions, s, driver, cmd);
    AcceptedEventIsFrozen(s, cmd);
    SwapIsACommit(w, driver, cmd);
    RunAppend(Start(BASE), actions, Commit(ME, cmd));
    BaseIsFresh();
    EveryRunKeepsOutbox(BASE, actions);
    EveryRunKeepsOutbox(BASE, actions + [Commit(ME, cmd)]);
    assert CursorOf(BASE + events) == CursorOf(events);
    NewEventIsAppended(w, Run(Start(BASE), actions + [Commit(ME, cmd)]), n);
  }

  lemma AcceptedBySuccess(actions: seq<Action>, s: EvState, driver: Driver, cmd: Command)
    requires var w := Run(Start(BASE), actions);
             w.state == Some(s) && driver.revision == w.revision && driver.state == w.state && Succeeds(driver, s, cmd)
    ensures var w := Run(Start(BASE), actions); Swaps(w.revision, w.state, driver, cmd) && Accepted(s, cmd)
  {
    hide Run, Next, Enabled, Refused, ValidSuccessor, Permitted;
    SwapSucceeds(BASE, actions, driver, cmd);
  }

  /** A transition with its event, delivered. */
  lemma Goes(
      actions: seq<Action>, s: EvState, note: Note, events: seq<RunEvent>, roots: Roots, cmd: Command, n: EvState)
    requires Stands(actions, s, note, events, roots) && Leads(s, note, cmd, n, Nothing) && Moves(cmd)
    requires s.pending.None? && events != [] && CursorOf(events) == s.projected
    ensures && n.pending.Some?
            && Stands(actions + [Commit(ME, cmd), Confirm(ME), Commit(ME, ClearPending)], Cleared(n), Nothing,
                 events + [n.pending.value], roots)
  {
    hide Run, Leads, ReconciledLog, GoalRuntime.PlannedEvents;
    Attaches(actions, s, note, events, roots, cmd, n);
    var moved := actions + [Commit(ME, cmd)];
    Delivers(moved, Run(Start(BASE), moved), n, BASE + events);
    assert BASE + events + [n.pending.value] == BASE + (events + [n.pending.value]);
    assert moved + [Confirm(ME), Commit(ME, ClearPending)]
        == actions + [Commit(ME, cmd), Confirm(ME), Commit(ME, ClearPending)];
  }

  lemma Calls(actions: seq<Action>, s: EvState, events: seq<RunEvent>, roots: Roots, outcome: Outcome)
    requires Stands(actions, s, MayInvoke, events, roots)
    ensures Stands(actions + [Invoke(ME), Return(ME, outcome)], s, Answered(outcome), events, roots)
  {
    hide Run, Apply;
    var w := Run(Start(BASE), actions);
    CallSteps(w, w.drivers[ME], outcome);
    RunAppend(Start(BASE), actions, Invoke(ME));
    var called := actions + [Invoke(ME)];
    var v := Run(Start(BASE), called);
    CallSteps(v, v.drivers[ME], outcome);
    RunAppend(Start(BASE), called, Return(ME, outcome));
    assert called + [Return(ME, outcome)] == actions + [Invoke(ME), Return(ME, outcome)];
  }

  /** What the broker leaves of the roots. */
  function Handled(s: EvState, roots: Roots, denied: bool): Roots
    requires s.workspace.Some?
  {
    if denied || s.prepared.None? then roots else roots[s.workspace.value.token := s.prepared.value.after.files]
  }

  lemma Executes(actions: seq<Action>, s: EvState, events: seq<RunEvent>, roots: Roots, denied: bool)
    requires s.workspace.Some? && s.workspace.value.token in roots
    requires roots[s.workspace.value.token] == s.workspace.value.current.files
    requires Stands(actions, s, Nothing, events, roots)
    requires s.pending.None? && Operable(s) && s.cancellation.None? && NextEffect(s)
    requires NextIsWrite(s) <==> s.prepared.Some?
    ensures Stands(actions + [Execute(ME, denied)], s, Executed(denied), events, Handled(s, roots, denied))
  {
    hide Run, Apply;
    var w := Run(Start(BASE), actions);
    ExecuteIsAnswered(w, w.drivers[ME], denied);
    RunAppend(Start(BASE), actions, Execute(ME, denied));
  }

  /** The driver stops, and comes back with what is durable; the lease is not its own any more. */
  ghost predicate Restarted(actions: seq<Action>, s: EvState, events: seq<RunEvent>, roots: Roots) {
    var w := Run(Start(BASE), actions);
    w == Alone(w.revision, Some(s), BASE + events, roots, Driver(w.revision, Some(s), false, Nothing), events, w.invocations)
  }

  lemma Restarts(actions: seq<Action>, s: EvState, note: Note, events: seq<RunEvent>, roots: Roots)
    requires Stands(actions, s, note, events, roots)
    ensures Restarted(actions + [Load(ME)], s, events, roots)
  {
    hide Run;
    RunAppend(Start(BASE), actions, Load(ME));
  }

  /** It fences the lease, and gets the root. */
  lemma Recovers(actions: seq<Action>, s: EvState, events: seq<RunEvent>, roots: Roots, cmd: Command)
    requires Restarted(actions, s, events, roots) && cmd.ClaimRecovery? && s.pending.None? && Enabled(s, cmd)
    requires var n := Next(s, cmd); n != s && n.pending.None? && SameFence(n, n) && RootFits(roots, n)
    ensures Stands(actions + [Commit(ME, cmd)] + [RecoverRoot(ME)], Next(s, cmd), Nothing, events, roots)
  {
    hide Run, Apply, Next, Enabled, RootFits, SameFence, GoalRuntime.PlannedEvents;
    var w := Run(Start(BASE), actions);
    var driver := w.drivers[ME];
    SwapSucceeds(BASE, actions, driver, cmd);
    SwapIsACommit(w, driver, cmd);
    RunAppend(Start(BASE), actions, Commit(ME, cmd));
    assert events + [] == events;
    var v := Run(Start(BASE), actions + [Commit(ME, cmd)]);
    RecoverStepIs(v, v.drivers[ME]);
    RunAppend(Start(BASE), actions + [Commit(ME, cmd)], RecoverRoot(ME));
  }

  /** Somebody removes a root that is in use. */
  lemma Removes(actions: seq<Action>, s: EvState, note: Note, events: seq<RunEvent>, roots: Roots, token: Id)
    requires Stands(actions, s, note, events, roots) && !note.Opened?
    ensures Stands(actions + [RemoveRoot(token)], s, note, events, roots - {token})
  {
    hide Run, GoalRuntime.PlannedEvents;
    RunAppend(Start(BASE), actions, RemoveRoot(token));
  }

  lemma Opens(actions: seq<Action>, s: EvState, events: seq<RunEvent>, roots: Roots, root: Lease)
    requires Stands(actions, s, Nothing, events, roots) && root.token !in roots
    requires s.phase.RetryPending? && Closed(s)
    ensures Stands(actions + [OpenRoot(ME, root)], s, Opened(root), events, roots[root.token := root.files])
  {
    hide Run, Apply;
    var w := Run(Start(BASE), actions);
    OpenStep(w, w.drivers[ME], root);
    RunAppend(Start(BASE), actions, OpenRoot(ME, root));
  }

  // ---------------------------------------------------------------- claiming

  /** A state with all its parts; the digest is computed. */
  function St(
      plan: Plan, attempt: int, phase: Phase, revision: int, executor: Executor, w: Workspace, ledger: seq<Entry>,
      observations: seq<Receipt>, p: Option<Prepared>, result: Option<RoleResult>, bridge: Option<DiffBridge>,
      replay: Option<Id>, verifier: Option<Verifier>, cursor: Option<Cursor>): EvState
  {
    EvState(plan, phase, revision, attempt, Binding(3, attempt), executor, Some(w), ledger, p, observations, None, result,
      bridge, None, None, cursor, replay, verifier, NOW,
      StateDigest(phase, revision, attempt, plan, Binding(3, attempt), ledger, result,
        EngineerVerifierKernel.Transcript(verifier)))
  }

  function Bare(plan: Plan, executor: Executor, cursor: Option<Cursor>): EvState {
    St(plan, 1, Engineering, 1, executor, READY, [], [], None, None, None, None, None, cursor)
  }

  /** The plans of the examples are claimed under the same names. */
  predicate Exemplary(plan: Plan) { ValidPlan(plan) && plan.invocation == 3 }

  function ClaimedBy(plan: Plan): EvState { Claimed(plan, ROOT, CREATED, NOW) }

  function FirstEvent(plan: Plan): RunEvent {
    PhaseEventOf(Bare(plan, NotStarted, CREATED), Planned, ClaimAccepted, 4, Some(CREATED.value.id))
  }

  function FirstCursor(plan: Plan): Option<Cursor> { Some(Cursor(4, FirstEvent(plan).id)) }

  function ClaimOf(plan: Plan): seq<Action> {
    [Load(ME), OpenRoot(ME, ROOT), Install(ME, plan, CREATED, NOW), Confirm(ME), Commit(ME, ClearPending)]
  }

  lemma ClaimedState(plan: Plan)
    requires Exemplary(plan)
    ensures ClaimedBy(plan) == Bare(plan, NotStarted, CREATED).(pending := Some(FirstEvent(plan)))
    ensures Cleared(ClaimedBy(plan)) == Bare(plan, NotStarted, FirstCursor(plan))
    ensures ClaimedBy(plan).projected == CREATED && ValidInitialInstall(ClaimedBy(plan)) && !TargetMatches(plan, [])
  {
    var s := ClaimedBy(plan);
    assert ValidPlan(s.plan);
    assert ValidAttempt(s);
    assert ValidPhaseShape(s);
    assert ValidState(s);
  }

  lemma ClaimStands(plan: Plan)
    requires Exemplary(plan)
    ensures Stands(ClaimOf(plan), Bare(plan, NotStarted, FirstCursor(plan)), Nothing, [FirstEvent(plan)], EMPTY)
  {
    hide Run, ValidInitialInstall, FrozenMatches, Cleared, TargetMatches, PhaseEventOf, Bare, Claimed, ClaimedBy;
    hide ReconciledLog;
    ClaimedState(plan);
    ClaimIsInstalled(plan);
    var claimed := ClaimedBy(plan);
    ClaimedEventIsFrozen(claimed);
    NewLogTakesIt(claimed);
    assert BASE + [FirstEvent(plan)] == BASE + [claimed.pending.value];
    Delivers(InstallOf(plan), Run(Start(BASE), InstallOf(plan)), claimed, BASE);
    assert InstallOf(plan) + [Confirm(ME), Commit(ME, ClearPending)] == ClaimOf(plan);
  }

  function InstallOf(plan: Plan): seq<Action> { [Load(ME), OpenRoot(ME, ROOT), Install(ME, plan, CREATED, NOW)] }

  lemma ClaimIsInstalled(plan: Plan)
    requires Exemplary(plan)
    ensures var claimed := ClaimedBy(plan);
            Run(Start(BASE), InstallOf(plan))
            == Alone(1, Some(claimed), BASE, EMPTY, Driver(1, Some(claimed), true, Nothing), [FirstEvent(plan)], [])
  {
    hide Run, Apply, ValidInitialInstall, PhaseEventOf, Bare, Claimed, ClaimedBy, GoalRuntime.PlannedEvents;
    var w0 := Start(BASE);
    var loaded, rooted := [Load(ME)], [Load(ME), OpenRoot(ME, ROOT)];
    RunAppend(w0, [], Load(ME));
    RunAppend(w0, loaded, OpenRoot(ME, ROOT));
    RunAppend(w0, rooted, Install(ME, plan, CREATED, NOW));
    assert [] + [Load(ME)] == loaded && loaded + [OpenRoot(ME, ROOT)] == rooted;
    assert rooted + [Install(ME, plan, CREATED, NOW)] == InstallOf(plan);
    EmptyRun(w0);
    InstallLeads(plan);
  }

  lemma InstallLeads(plan: Plan)
    requires Exemplary(plan)
    ensures var claimed := ClaimedBy(plan);
            Apply(Apply(Apply(Start(BASE), Load(ME)), OpenRoot(ME, ROOT)), Install(ME, plan, CREATED, NOW))
            == Alone(1, Some(claimed), BASE, EMPTY, Driver(1, Some(claimed), true, Nothing), [FirstEvent(plan)], [])
  {
    hide Run, ValidInitialInstall, FrozenMatches, Cleared, TargetMatches, PhaseEventOf, Bare, Claimed;
    ClaimedState(plan);
  }

  lemma EmptyRun(w: World)
    ensures Run(w, []) == w
  {
  }

  lemma NewLogTakesIt(s: EvState)
    requires s.pending.Some? && s.projected == CREATED && FrozenMatches(s, s.pending.value)
    ensures ReconciledLog(s, BASE) == Some(BASE + [s.pending.value])
  {
    BaseIsFresh();
    assert s.pending.value.id.PhaseEventId?;
    hide FrozenMatches, ReadableLog;
  }

  // ---------------------------------------------------------------- calling the executor

  function CallOf(plan: Plan, outcome: Outcome): seq<Action> {
    ClaimOf(plan) + [Commit(ME, StartExecutor(NOW))] + [Invoke(ME), Return(ME, outcome)]
    + [Commit(ME, RecordOutcome(outcome, NOW))]
  }

  function After(plan: Plan, outcome: Outcome): EvState {
    Bare(plan, OutcomeRecorded(1, NOW, outcome, NOW), FirstCursor(plan))
  }

  lemma CallLeads(plan: Plan, outcome: Outcome)
    requires Exemplary(plan) && ValidOutcome(outcome, 1, plan)
    ensures var started := Bare(plan, Started(1, NOW), FirstCursor(plan));
            && Leads(Bare(plan, NotStarted, FirstCursor(plan)), Nothing, StartExecutor(NOW), started, MayInvoke)
            && Leads(started, Answered(outcome), RecordOutcome(outcome, NOW), After(plan, outcome), Nothing)
  {
  }

  lemma CallStands(plan: Plan, outcome: Outcome)
    requires Exemplary(plan) && ValidOutcome(outcome, 1, plan)
    ensures Stands(CallOf(plan, outcome), After(plan, outcome), Nothing, [FirstEvent(plan)], EMPTY)
  {
    hide Stands, Leads, PhaseEventOf;
    ClaimStands(plan);
    CallLeads(plan, outcome);
    var events := [FirstEvent(plan)];
    var started := Bare(plan, Started(1, NOW), FirstCursor(plan));
    var begun := ClaimOf(plan) + [Commit(ME, StartExecutor(NOW))];
    Commits(ClaimOf(plan), Bare(plan, NotStarted, FirstCursor(plan)), Nothing, events, EMPTY, StartExecutor(NOW), started,
      MayInvoke);
    Calls(begun, started, events, EMPTY, outcome);
    Commits(begun + [Invoke(ME), Return(ME, outcome)], started, Answered(outcome), events, EMPTY,
      RecordOutcome(outcome, NOW), After(plan, outcome), Nothing);
  }

  // ---------------------------------------------------------------- the write

  const COMPLETED := OutcomeRecorded(1, NOW, Completed(RESULT), NOW)
  const EVENT := FirstEvent(PLAN)
  const CURSOR := FirstCursor(PLAN)

  /** With the result recorded: the ledger, what is prepared, and how far the verifier is. */
  function Worked(
      phase: Phase, revision: int, w: Workspace, ledger: seq<Entry>, p: Option<Prepared>, bridge: Option<DiffBridge>,
      replay: Option<Id>, verifier: Option<Verifier>, cursor: Option<Cursor>): EvState
  {
    St(PLAN, 1, phase, revision, COMPLETED, w, ledger, if ledger == [] then [] else [Receipt(7, 1, BEFORE, AFTER)], p,
      Some(RESULT), bridge, replay, verifier, cursor)
  }

  const BROKEN := After(PLAN, ExecutorFailed(FAILURE))
  const RESULTED := Worked(Engineering, 1, READY, [], None, None, None, None, CURSOR)
  const WRITING := Worked(Engineering, 1, READY, [], Some(PREPARED), None, None, None, CURSOR)
  const RESOLVED := Worked(Engineering, 1, DONE, [WRITTEN], None, None, None, None, CURSOR)

  lemma ResultLeads(plan: Plan)
    requires Exemplary(plan)
    ensures Leads(After(plan, Completed(RESULT)), Nothing, RecordResult(NOW), Ready(plan), Nothing)
  {
  }

  /** Ready for the effects. */
  function Ready(plan: Plan): EvState {
    St(plan, 1, Engineering, 1, COMPLETED, READY, [], [], None, Some(RESULT), None, None, None, FirstCursor(plan))
  }

  function ReadyBy(plan: Plan): seq<Action> { CallOf(plan, Completed(RESULT)) + [Commit(ME, RecordResult(NOW))] }

  lemma ReadyStands(plan: Plan)
    requires Exemplary(plan)
    ensures Stands(ReadyBy(plan), Ready(plan), Nothing, [FirstEvent(plan)], EMPTY)
  {
    hide Stands, Leads, PhaseEventOf;
    CallStands(plan, Completed(RESULT));
    ResultLeads(plan);
    Commits(CallOf(plan, Completed(RESULT)), After(plan, Completed(RESULT)), Nothing, [FirstEvent(plan)], EMPTY,
      RecordResult(NOW), Ready(plan), Nothing);
  }

  lemma WrittenList()
    ensures WrittenFiles([], FILE) == [FILE]
  {
    assert [] + [FILE] == [FILE] && [FILE] + [] == [FILE] && [FILE][..0] == [];
    assert SortByPath([FILE]) == InsertByPath(FILE, []) == [FILE];
  }

  lemma PrepareLeads()
    ensures Leads(RESULTED, Nothing, PrepareWrite(NOW), WRITING, Nothing)
  {
    hide WrittenFiles;
    WrittenList();
  }

  lemma ReceiptLeads()
    ensures Leads(WRITING, Executed(false), RecordReceipt(false, NOW), RESOLVED, Nothing)
  {
    assert [] + [WRITTEN] == [WRITTEN];
    assert [] + [Receipt(7, 1, BEFORE, AFTER)] == [Receipt(7, 1, BEFORE, AFTER)];
  }

  lemma CancelLeads(s: EvState)
    requires s.pending.None? && !Terminal(s.phase) && s.cancellation.None? && s.time == NOW && s.digest == ComputedDigest(s)
    ensures Leads(s, Nothing, RequestCancellation(1, NOW), s.(cancellation := Some(Cancellation(1, NOW))), Nothing)
  {
  }

  const PREPARING := ReadyBy(PLAN) + [Commit(ME, PrepareWrite(NOW))]
  const RESOLVING := PREPARING + [Execute(ME, false)] + [Commit(ME, RecordReceipt(false, NOW))]

  lemma PreparingStands()
    ensures Stands(PREPARING, WRITING, Nothing, [EVENT], EMPTY)
  {
    hide Stands, Leads, PhaseEventOf;
    ReadyStands(PLAN);
    PrepareLeads();
    Commits(ReadyBy(PLAN), RESULTED, Nothing, [EVENT], EMPTY, PrepareWrite(NOW), WRITING, Nothing);
  }

  lemma ResolvingStands()
    ensures Stands(RESOLVING, RESOLVED, Nothing, [EVENT], WROTE)
  {
    hide Stands, Leads, PhaseEventOf;
    PreparingStands();
    ReceiptLeads();
    Executes(PREPARING, WRITING, [EVENT], EMPTY, false);
    assert Handled(WRITING, EMPTY, false) == WROTE;
    Commits(PREPARING + [Execute(ME, false)], WRITING, Executed(false), [EVENT], WROTE, RecordReceipt(false, NOW),
      RESOLVED, Nothing);
  }

  // ---------------------------------------------------------------- the verifier

  const BRIDGE := BridgeOf(RESOLVED, 14)
  const BEGUN := VerifierStarted(NOW)
  const OBSERVED := PublicationObserved(15, 16, NOW)
  const ADMITTED := Admitted(15, 16, NOW, NOW)

  function Verified(phase: Phase, revision: int, verifier: Verifier, cursor: Option<Cursor>): EvState {
    Worked(phase, revision, DONE, [WRITTEN], None, Some(BRIDGE), Some(13), Some(verifier), cursor)
  }

  const VERIFYING := PhaseEventOf(Verified(Verifying, 2, VerifierNotStarted, CURSOR), Engineering, EngineerCompleted, 5,
                       Some(EVENT.id))
  const CURSOR2 := Some(Cursor(5, VERIFYING.id))
  const REVIEWING := PhaseEventOf(Verified(Reviewing, 3, ADMITTED, CURSOR2), Verifying, VerificationEvidenceAccepted, 6,
                       Some(VERIFYING.id))
  const CURSOR3 := Some(Cursor(6, REVIEWING.id))

  lemma SealLeads()
    ensures var sealed := Verified(Engineering, 1, VerifierNotStarted, CURSOR);
            && Leads(RESOLVED, Nothing, RecordReplay(14, 13, NOW), sealed, Nothing)
            && Leads(sealed, Nothing, Transition(Verifying, EngineerCompleted, NOW),
                 Verified(Verifying, 2, VerifierNotStarted, CURSOR).(pending := Some(VERIFYING)), Nothing)
  {
    hide BridgeOf;
  }

  lemma BeginLeads()
    ensures Leads(Verified(Verifying, 2, VerifierNotStarted, CURSOR2), Nothing, StartVerifier(NOW),
              Verified(Verifying, 2, BEGUN, CURSOR2), Nothing)
  {
    hide BridgeOf;
  }

  lemma ObserveLeads()
    ensures Leads(Verified(Verifying, 2, BEGUN, CURSOR2), Nothing, Observe(15, 16, NOW),
              Verified(Verifying, 2, OBSERVED, CURSOR2), Nothing)
  {
    hide BridgeOf;
  }

  lemma AdmitLeads()
    ensures Leads(Verified(Verifying, 2, OBSERVED, CURSOR2), Nothing, Admit(NOW),
              Verified(Reviewing, 3, ADMITTED, CURSOR2).(pending := Some(REVIEWING)), Nothing)
  {
    hide BridgeOf;
  }

  const SEALING := RESOLVING + [Commit(ME, RecordReplay(14, 13, NOW))]
                   + [Commit(ME, Transition(Verifying, EngineerCompleted, NOW)), Confirm(ME), Commit(ME, ClearPending)]
  const CHECKING := SEALING + [Commit(ME, StartVerifier(NOW))]
  const FINISHING := CHECKING + [Commit(ME, Observe(15, 16, NOW))]
                     + [Commit(ME, Admit(NOW)), Confirm(ME), Commit(ME, ClearPending)]
  const LOG2 := [EVENT] + [VERIFYING]
  const LOG3 := LOG2 + [REVIEWING]

  lemma CheckingStands()
    ensures Stands(CHECKING, Verified(Verifying, 2, BEGUN, CURSOR2), Nothing, LOG2, WROTE)
  {
    hide Stands, Leads, BridgeOf;
    ResolvingStands();
    SealLeads();
    BeginLeads();
    var sealed := Verified(Engineering, 1, VerifierNotStarted, CURSOR);
    var ready := Verified(Verifying, 2, VerifierNotStarted, CURSOR2);
    var moved := Verified(Verifying, 2, VerifierNotStarted, CURSOR).(pending := Some(VERIFYING));
    Commits(RESOLVING, RESOLVED, Nothing, [EVENT], WROTE, RecordReplay(14, 13, NOW), sealed, Nothing);
    Goes(RESOLVING + [Commit(ME, RecordReplay(14, 13, NOW))], sealed, Nothing, [EVENT], WROTE,
      Transition(Verifying, EngineerCompleted, NOW), moved);
    assert Cleared(moved) == ready;
    Commits(SEALING, ready, Nothing, LOG2, WROTE, StartVerifier(NOW), Verified(Verifying, 2, BEGUN, CURSOR2), Nothing);
  }

  lemma FinishingStands()
    ensures Stands(FINISHING, Verified(Reviewing, 3, ADMITTED, CURSOR3), Nothing, LOG3, WROTE)
  {
    hide Stands, Leads, BridgeOf;
    CheckingStands();
    ObserveLeads();
    AdmitLeads();
    var begun := Verified(Verifying, 2, BEGUN, CURSOR2);
    var observed := Verified(Verifying, 2, OBSERVED, CURSOR2);
    var moved := Verified(Reviewing, 3, ADMITTED, CURSOR2).(pending := Some(REVIEWING));
    Commits(CHECKING, begun, Nothing, LOG2, WROTE, Observe(15, 16, NOW), observed, Nothing);
    Goes(CHECKING + [Commit(ME, Observe(15, 16, NOW))], observed, Nothing, LOG2, WROTE, Admit(NOW), moved);
    assert Cleared(moved) == Verified(Reviewing, 3, ADMITTED, CURSOR3);
  }

  // ---------------------------------------------------------------- how it ends

  /** The rules let a run through: it writes its file, is verified, and ends with a chain the validator takes. */
  lemma ARunFinishes()
    ensures exists actions :: Finishes(Run(Start(BASE), actions))
  {
    FinishedExample();
    hide *;
    assert Finishes(Run(Start(BASE), FINISHING));
  }

  lemma FinishedExample()
    ensures Finishes(Run(Start(BASE), FINISHING))
  {
    FinishingStands();
    hide Run, BridgeOf, TerminalChain, GoodHead, FirstPhaseEvent;
    BaseIsFresh();
    FinishedRunIsAcceptedIff(BASE, FINISHING);
    PhasesFollowTheCreation(EVENT, VERIFYING, REVIEWING);
    ChainIsTheLog(BASE + LOG3, Verified(Reviewing, 3, ADMITTED, CURSOR3));
  }

  lemma ChainIsTheLog(events: seq<RunEvent>, s: EvState)
    ensures TerminalChain(events, s).Some? ==> TerminalChain(events, s) == Some(events)
  {
    hide ValidState, ReadableLog, UniqueIds, ChainRows, ValidRows;
  }

  lemma PhasesFollowTheCreation(a: RunEvent, b: RunEvent, c: RunEvent)
    requires a.payload.PhaseNote?
    ensures var log := BASE + ([a] + [b] + [c]);
            FirstPhaseEvent(log) == |BASE| && log[..|BASE|] == BASE && log[|log| - 1] == c
  {
    var log := BASE + ([a] + [b] + [c]);
    assert log[|BASE|] == a;
    forall i | 0 <= i < |BASE| ensures !log[i].payload.PhaseNote? { assert log[i] == BASE[i]; }
    hide FirstPhaseEvent;
  }

  ghost predicate Finishes(w: World) {
    && w.state.Some? && w.state.value.phase.Reviewing? && w.state.value.pending.None?
    && w.roots == WROTE
    && TerminalChain(w.log, w.state.value) == Some(w.log)
  }

  /** A state no continuation leaves for a terminal phase, or for a retry. */
  ghost predicate NeverEnds(w: World) {
    w.state.Some? && forall later :: !Continuations.Finished(Run(w, later))
  }

  const CANCEL := RequestCancellation(1, NOW)

  /** A cancellation recorded while a write is prepared and not yet made is never carried out, and the run never
      ends, as long as the root is left alone. */
  lemma APreparedWriteBlocksItsCancellation()
    ensures exists actions :: var w := Run(Start(BASE), actions);
              && w.state.Some? && w.state.value.cancellation.Some?
              && forall later :: SparesAlways(w, later) ==> !Continuations.Finished(Run(w, later))
  {
    hide GoalRuntime.PlannedEvents, GoodHead, PhaseEventOf, ReadableRun, UniqueIds, PhaseEvents;
    hide Run, SparesAlways;
    PreparingStands();
    CancelLeads(WRITING);
    var cancelled := WRITING.(cancellation := Some(Cancellation(1, NOW)));
    var actions := PREPARING + [Commit(ME, CANCEL)];
    Commits(PREPARING, WRITING, Nothing, [EVENT], EMPTY, CANCEL, cancelled, Nothing);
    BaseIsFresh();
    EveryRunKeepsOutbox(BASE, actions);
    var w := Run(Start(BASE), actions);
    assert Held(w);
    forall later | SparesAlways(w, later) ensures !Continuations.Finished(Run(w, later)) {
      CancelledPreparedWriteIsStuck(w, later);
    }
  }

  /** So is one recorded after the last effect, or while the verifier runs. */
  lemma ALateCancellationIsIgnored()
    ensures exists actions :: var w := Run(Start(BASE), actions);
              w.state.Some? && w.state.value.phase.Engineering? && w.state.value.cancellation.Some? && NeverEnds(w)
    ensures exists actions :: var w := Run(Start(BASE), actions);
              w.state.Some? && w.state.value.phase.Verifying? && w.state.value.cancellation.Some? && NeverEnds(w)
  {
    ResolvingStands();
    CheckingStands();
    Ignored(RESOLVING, RESOLVED, [EVENT]);
    Ignored(CHECKING, Verified(Verifying, 2, BEGUN, CURSOR2), LOG2);
  }

  lemma Ignored(actions: seq<Action>, s: EvState, events: seq<RunEvent>)
    requires Stands(actions, s, Nothing, events, WROTE) && s.time == NOW && s.digest == ComputedDigest(s)
    requires s.pending.None? && s.cancellation.None? && TooLate(s.(cancellation := Some(Cancellation(1, NOW))))
    ensures var w := Run(Start(BASE), actions + [Commit(ME, CANCEL)]);
            w.state.Some? && w.state.value.phase == s.phase && w.state.value.cancellation.Some? && NeverEnds(w)
  {
    hide GoalRuntime.PlannedEvents, GoodHead, PhaseEventOf, ReadableRun, UniqueIds, PhaseEvents, Run;
    CancelLeads(s);
    var late := actions + [Commit(ME, CANCEL)];
    Commits(actions, s, Nothing, events, WROTE, CANCEL, s.(cancellation := Some(Cancellation(1, NOW))), Nothing);
    BaseIsFresh();
    EveryRunKeepsOutbox(BASE, late);
    var w := Run(Start(BASE), late);
    assert LateCancellation(w);
    forall later ensures !Continuations.Finished(Run(w, later)) {
      LateCancellationIsNeverCarriedOut(w, later);
    }
  }

  // ---------------------------------------------------------------- a crash after closing

  const CLOSING := CallOf(PLAN, ExecutorFailed(FAILURE)) + [Commit(ME, CloseWorkspace)]

  lemma CloseLeads(s: EvState)
    requires Working(s)
    ensures Leads(s, Nothing, CloseWorkspace, ClosedState(s), Nothing)
  {
  }

  /** An attempt that did not complete, in an open workspace. */
  predicate Working(s: EvState) {
    && s.phase.Engineering? && s.pending.None? && s.workspace.Some? && !s.workspace.value.closed
    && s.ledger == [] && s.prepared.None? && RetryableOutcome(s.executor)
  }

  lemma ClosingStands()
    ensures Stands(CLOSING, ClosedState(BROKEN), Nothing, [EVENT], EMPTY)
  {
    hide Stands, Leads, PhaseEventOf;
    CallStands(PLAN, ExecutorFailed(FAILURE));
    CloseLeads(BROKEN);
    Commits(CallOf(PLAN, ExecutorFailed(FAILURE)), BROKEN, Nothing, [EVENT], EMPTY, CloseWorkspace, ClosedState(BROKEN),
      Nothing);
  }

  /** A run whose executor failed, and whose driver stopped between closing the workspace and the transition
      to Failed, never fails: it stays in Engineering. */
  lemma AStoppedDriverStrandsItsRun()
    ensures exists actions :: var w := Run(Start(BASE), actions);
              w.state.Some? && w.state.value.phase.Engineering? && NeverEnds(w)
  {
    StoppedRunIsAbandoned();
    var w := Run(Start(BASE), CLOSING + [Load(ME)]);
    hide Run, LeaseIsGone;
    forall later ensures !Continuations.Finished(Run(w, later)) {
      CrashAfterCloseStrandsTheRun(w, later);
    }
  }

  lemma StoppedRunIsAbandoned()
    ensures var w := Run(Start(BASE), CLOSING + [Load(ME)]); Abandoned(w) && w.state.value.phase.Engineering?
  {
    hide GoalRuntime.PlannedEvents, GoodHead, PhaseEventOf, ReadableRun, UniqueIds, PhaseEvents;
    hide Run, PhaseEventOf;
    ClosingStands();
    Restarts(CLOSING, ClosedState(BROKEN), Nothing, [EVENT], EMPTY);
    BaseIsFresh();
    EveryRunKeepsOutbox(BASE, CLOSING + [Load(ME)]);
  }

  // ---------------------------------------------------------------- a crash while closing

  const REMOVING := CallOf(PLAN, ExecutorFailed(FAILURE)) + [RemoveRoot(ROOT.token)]

  /** A run whose executor failed, and whose driver stopped after it removed the root and before it wrote that
      the workspace is closed, never fails either: it can be fenced, and its root never recovered. */
  lemma ARemovedRootStrandsItsRun()
    ensures exists actions :: var w := Run(Start(BASE), actions);
              && w.state.Some? && w.state.value.phase.Engineering? && !LeaseIsGone(w.state.value) && NeverEnds(w)
  {
    var actions := REMOVING + [Load(ME)];
    RemovedRootIsLost();
    var w := Run(Start(BASE), actions);
    hide Run;
    forall later ensures !Continuations.Finished(Run(w, later)) { ALostRootStrandsTheRun(w, later); }
  }

  lemma RemovedRootIsLost()
    ensures var w := Run(Start(BASE), REMOVING + [Load(ME)]);
            Rootless(w) && w.state.value.phase.Engineering? && !LeaseIsGone(w.state.value)
  {
    hide GoalRuntime.PlannedEvents, GoodHead, PhaseEventOf, ReadableRun, UniqueIds, PhaseEvents, Run;
    CallStands(PLAN, ExecutorFailed(FAILURE));
    Removes(CallOf(PLAN, ExecutorFailed(FAILURE)), BROKEN, Nothing, [EVENT], EMPTY, ROOT.token);
    Restarts(REMOVING, BROKEN, Nothing, [EVENT], EMPTY - {ROOT.token});
    BaseIsFresh();
    EveryRunKeepsOutbox(BASE, REMOVING + [Load(ME)]);
  }

  // ---------------------------------------------------------------- a crash after a denial

  const REFUSED := Entry(0, 7, 1, Denied, Some(Receipt(7, 1, BEFORE, BEFORE)), None, BEFORE, BEFORE)
  const REFUSING := PREPARING + [Execute(ME, true)] + [Commit(ME, RecordReceipt(true, NOW))]
  const DENIED :=
    St(PLAN, 1, Engineering, 1, COMPLETED, READY.(nextReceipt := 2), [REFUSED], [Receipt(7, 1, BEFORE, BEFORE)], None,
      Some(RESULT), None, None, None, CURSOR)

  lemma DenialLeads()
    ensures Leads(WRITING, Executed(true), RecordReceipt(true, NOW), DENIED, SawDenial)
  {
    assert [] + [REFUSED] == [REFUSED];
    assert [] + [Receipt(7, 1, BEFORE, BEFORE)] == [Receipt(7, 1, BEFORE, BEFORE)];
  }

  /** A run whose last effect was denied, and whose driver stopped before it failed the run, never fails. */
  lemma ADeniedEffectStrandsItsRun()
    ensures exists actions :: var w := Run(Start(BASE), actions);
              w.state.Some? && LastDenied(w.state.value) && w.state.value.phase.Engineering? && NeverEnds(w)
  {
    hide GoalRuntime.PlannedEvents, GoodHead, PhaseEventOf, ReadableRun, UniqueIds, PhaseEvents;
    hide Run;
    PreparingStands();
    DenialLeads();
    Executes(PREPARING, WRITING, [EVENT], EMPTY, true);
    Commits(PREPARING + [Execute(ME, true)], WRITING, Executed(true), [EVENT], EMPTY, RecordReceipt(true, NOW), DENIED,
      SawDenial);
    Restarts(REFUSING, DENIED, SawDenial, [EVENT], EMPTY);
    var actions := REFUSING + [Load(ME)];
    BaseIsFresh();
    EveryRunKeepsOutbox(BASE, actions);
    var w := Run(Start(BASE), actions);
    assert DeniedAndLeft(w);
    forall later ensures !Continuations.Finished(Run(w, later)) {
      DeniedLastEffectStrandsTheRun(w, later);
    }
  }

  // ---------------------------------------------------------------- a write after a denial

  const LATER: Time := 20
  const RETAKE := ClaimRecovery(99, LATER)
  const UNREAD := Entry(0, 6, 1, Denied, Some(Receipt(6, 1, BEFORE, BEFORE)), None, BEFORE, BEFORE)
  const READREFUSED :=
    St(READING, 1, Engineering, 1, COMPLETED, READY.(nextReceipt := 2), [UNREAD], [Receipt(6, 1, BEFORE, BEFORE)], None,
      Some(RESULT), None, None, None, FirstCursor(READING))
  const RETAKEN := READREFUSED.(
    workspace := Some(READY.(nextReceipt := 2, instance := 99, epoch := 2, fence := 2, heartbeatAt := LATER)), time := LATER)
  const WRITINGON := RETAKEN.(prepared := Some(Prepared(1, 7, 1, BEFORE, AFTER, FILE, 2, LATER)))

  const UNREADBY := ReadyBy(READING) + [Execute(ME, true)] + [Commit(ME, RecordReceipt(true, NOW))]
  const RETAKENBY := UNREADBY + [Load(ME)] + [Commit(ME, RETAKE)] + [RecoverRoot(ME)]
  const WRITTENBY := RETAKENBY + [Commit(ME, PrepareWrite(LATER))] + [Execute(ME, false)] + [Load(ME)]

  lemma ReadDenialLeads()
    ensures Leads(Ready(READING), Executed(true), RecordReceipt(true, NOW), READREFUSED, SawDenial)
  {
    assert [] + [UNREAD] == [UNREAD];
    assert [] + [Receipt(6, 1, BEFORE, BEFORE)] == [Receipt(6, 1, BEFORE, BEFORE)];
  }

  lemma RetakeLeads()
    ensures Enabled(READREFUSED, RETAKE) && Next(READREFUSED, RETAKE) == RETAKEN
    ensures SameFence(RETAKEN, RETAKEN) && RootFits(EMPTY, RETAKEN)
  {
  }

  lemma WriteOnLeads()
    ensures Leads(RETAKEN, Nothing, PrepareWrite(LATER), WRITINGON, Nothing)
  {
    hide WrittenFiles;
    WrittenList();
  }

  lemma UnreadStands()
    ensures Stands(RETAKENBY, RETAKEN, Nothing, [FirstEvent(READING)], EMPTY)
  {
    hide Stands, Leads, PhaseEventOf, Restarted;
    var events := [FirstEvent(READING)];
    ReadyStands(READING);
    ReadDenialLeads();
    RetakeLeads();
    Executes(ReadyBy(READING), Ready(READING), events, EMPTY, true);
    Commits(ReadyBy(READING) + [Execute(ME, true)], Ready(READING), Executed(true), events, EMPTY, RecordReceipt(true, NOW),
      READREFUSED, SawDenial);
    Restarts(UNREADBY, READREFUSED, SawDenial, events, EMPTY);
    Recovers(UNREADBY + [Load(ME)], READREFUSED, events, EMPTY, RETAKE);
  }

  lemma WrittenOnStands()
    ensures Restarted(WRITTENBY, WRITINGON, [FirstEvent(READING)], WROTE)
  {
    hide Stands, Leads, PhaseEventOf, Restarted;
    var events := [FirstEvent(READING)];
    UnreadStands();
    WriteOnLeads();
    var prepared := RETAKENBY + [Commit(ME, PrepareWrite(LATER))];
    Commits(RETAKENBY, RETAKEN, Nothing, events, EMPTY, PrepareWrite(LATER), WRITINGON, Nothing);
    Executes(prepared, WRITINGON, events, EMPTY, false);
    assert Handled(WRITINGON, EMPTY, false) == WROTE;
    Restarts(prepared + [Execute(ME, false)], WRITINGON, Executed(false), events, WROTE);
  }

  /** A run whose first effect was denied goes on, after a crash, to write a file that its ledger never shows:
      the write is never recorded, and unless the root is deleted the run never ends. */
  lemma ADeniedRunWritesInVain()
    ensures exists actions :: WroteInVain(Run(Start(BASE), actions))
  {
    hide GoalRuntime.PlannedEvents, GoodHead, PhaseEventOf, ReadableRun, UniqueIds, PhaseEvents, Run;
    WrittenOnStands();
    BaseIsFresh();
    EveryRunKeepsOutbox(BASE, WRITTENBY);
    BaseIsFresh();
    var w := Run(Start(BASE), WRITTENBY);
    assert w.roots[ROOT.token] == [FILE];
    hide Restarted;
    assert Endings.Unattended(w) && Endings.HeldByItsRoot(w) && LastDenied(w.state.value);
    Endings.UnattendedRunIsFinishedIff(BASE, WRITTENBY);
    Endings.MadeWriteIsRecordedIff(BASE, WRITTENBY);
    assert WroteInVain(w);
  }

  ghost predicate WroteInVain(w: World) {
    && w.state.Some? && LastDenied(w.state.value) && w.state.value.workspace.Some?
    && w.state.value.workspace.value.token in w.roots
    && w.roots[w.state.value.workspace.value.token] == [FILE]
    && w.state.value.workspace.value.current.files == []
    && !Continuations.CanFinish(w) && !Endings.CanBeRecorded(w)
  }

  // ---------------------------------------------------------------- a recovery after the end

  const RECOVER := ClaimRecovery(99, 20)

  lemma RecoverLeads()
    ensures var s := Verified(Reviewing, 3, ADMITTED, CURSOR3);
            && Enabled(s, RECOVER)
            && var n := Next(s, RECOVER);
               (n.pending.None? && n.phase.Reviewing? && n.time == 20 && SameFence(n, n) && RootFits(WROTE, n))
  {
    hide BridgeOf;
  }

  /** A finished run whose chain is accepted, and one resume, whose recovery of the lease means it never is
      again. */
  lemma ARecoveryCostsTheChain()
    ensures exists actions, resume :: && Finishes(Run(Start(BASE), actions))
                                      && LostItsChain(actions + resume)
  {
    FinishedExample();
    RecoveredExample();
    var resume := [Load(ME), Commit(ME, RECOVER), RecoverRoot(ME)];
    hide Run, Finishes, TerminalChain, GoalRuntime.PlannedEvents, ReadableRun, UniqueIds, GoodHead, Next, Enabled;
    BaseIsFresh();
    forall later ensures var v := Run(Start(BASE), FINISHING + resume + later);
                         v.state.Some? && TerminalChain(v.log, v.state.value).None?
    {
      RecoveringAFinishedRunBreaksItsChain(BASE, FINISHING + resume, later);
    }
    assert LostItsChain(FINISHING + resume);
  }

  lemma RecoveredExample()
    ensures var w := Run(Start(BASE), FINISHING + [Load(ME), Commit(ME, RECOVER), RecoverRoot(ME)]);
            && w.state.Some? && w.state.value.phase.Reviewing? && w.state.value.pending.None?
            && w.committed != [] && w.committed[|w.committed| - 1].at < w.state.value.time
  {
    var s := Verified(Reviewing, 3, ADMITTED, CURSOR3);
    FinishingStands();
    RecoverLeads();
    assert REVIEWING.at == NOW;
    hide Run, Next, Enabled, BridgeOf, SameFence, RootFits, GoalRuntime.PlannedEvents, PhaseEventOf, St;
    Restarts(FINISHING, s, Nothing, LOG3, WROTE);
    Recovers(FINISHING + [Load(ME)], s, LOG3, WROTE, RECOVER);
    assert FINISHING + [Load(ME)] + [Commit(ME, RECOVER)] + [RecoverRoot(ME)]
        == FINISHING + [Load(ME), Commit(ME, RECOVER), RecoverRoot(ME)];
  }

  ghost predicate LostItsChain(actions: seq<Action>) {
    forall later :: var v := Run(Start(BASE), actions + later);
      v.state.Some? && TerminalChain(v.log, v.state.value).None?
  }

  // ---------------------------------------------------------------- two attempts

  const AGAIN := ExecutorRetry(1, 2)
  const ROOT2 := Lease(40, 60, 0, 100, [], 80, 1)
  const BOTH: Roots := map[4 := [], 40 := []]
  const BEFORE2 := Snapshot(60, 0, [])
  const READY2 := Workspace(40, 60, 2, 0, 100, BEFORE2, BEFORE2, 80, 1, 1, NOW, 1, false, false)
  const RESULT2 := RoleResult(11, 2, true)
  const COMPLETED2 := OutcomeRecorded(2, NOW, Completed(RESULT2), NOW)
  const RETRY := After(TWICE, AGAIN)
  const REWROTE: Roots := map[4 := [], 40 := [FILE]]
  const AFTER2 := Snapshot(60, 1, [FILE])
  const DONE2 := READY2.(current := AFTER2, nextReceipt := 2)
  const PREPARED2 := Prepared(0, 7, 2, BEFORE2, AFTER2, FILE, 1, NOW)
  const WRITTEN2 := Entry(0, 7, 2, WriteApplied, Some(Receipt(7, 2, BEFORE2, AFTER2)), None, BEFORE2, AFTER2)

  /** Waiting for the second attempt. */
  function Waiting(cursor: Option<Cursor>): EvState {
    St(TWICE, 1, RetryPending, 2, OutcomeRecorded(1, NOW, AGAIN, NOW), READY.(closed := true), [], [], None, None, None,
      None, None, cursor)
  }

  /** The second attempt, before its write is prepared, while it is, and when it is recorded. */
  function Second(executor: Executor, p: Option<Prepared>, result: Option<RoleResult>, cursor: Option<Cursor>): EvState {
    St(TWICE, 2, Engineering, 3, executor, READY2, [], [], p, result, None, None, None, cursor)
  }

  function Rewritten(
      phase: Phase, revision: int, bridge: Option<DiffBridge>, verifier: Option<Verifier>, cursor: Option<Cursor>): EvState
  {
    St(TWICE, 2, phase, revision, COMPLETED2, DONE2, [WRITTEN2], [Receipt(7, 2, BEFORE2, AFTER2)], None, Some(RESULT2),
      bridge, if verifier.Some? then Some(13) else None, verifier, cursor)
  }

  const E1 := FirstEvent(TWICE)
  const C1 := FirstCursor(TWICE)
  const E2 := PhaseEventOf(Waiting(C1), Engineering, RetryRequired, 5, Some(E1.id))
  const C2 := Some(Cursor(5, E2.id))
  const E3 := PhaseEventOf(Second(NotStarted, None, None, C2), RetryPending, RetryClaimAccepted, 6,
                Some(E2.id))
  const C3 := Some(Cursor(6, E3.id))

  const RESULTED2 := Second(COMPLETED2, None, Some(RESULT2), C3)
  const WRITING2 := Second(COMPLETED2, Some(PREPARED2), Some(RESULT2), C3)
  const RESOLVED2 := Rewritten(Engineering, 3, None, None, C3)
  const BRIDGE2 := BridgeOf(RESOLVED2, 14)

  function Checked(phase: Phase, revision: int, verifier: Verifier, cursor: Option<Cursor>): EvState {
    Rewritten(phase, revision, Some(BRIDGE2), Some(verifier), cursor)
  }

  const E4 := PhaseEventOf(Checked(Verifying, 4, VerifierNotStarted, C3), Engineering, EngineerCompleted, 7, Some(E3.id))
  const C4 := Some(Cursor(7, E4.id))
  const E5 := PhaseEventOf(Checked(Reviewing, 5, ADMITTED, C4), Verifying, VerificationEvidenceAccepted, 8, Some(E4.id))
  const C5 := Some(Cursor(8, E5.id))

  const WAITBY := CallOf(TWICE, AGAIN) + [Commit(ME, CloseWorkspace)]
                  + [Commit(ME, Transition(RetryPending, RetryRequired, NOW)), Confirm(ME), Commit(ME, ClearPending)]
  const AGAINBY := WAITBY + [OpenRoot(ME, ROOT2)]
                   + [Commit(ME, ClaimRetry(ROOT2, NOW)), Confirm(ME), Commit(ME, ClearPending)]
  const ANSWER2 := Completed(RESULT2)
  const CALLBY := AGAINBY + [Commit(ME, StartExecutor(NOW))] + [Invoke(ME), Return(ME, ANSWER2)]
  const RESULTBY := CALLBY + [Commit(ME, RecordOutcome(ANSWER2, NOW))] + [Commit(ME, RecordResult(NOW))]
  const REWRITEBY := RESULTBY + [Commit(ME, PrepareWrite(NOW))] + [Execute(ME, false)]
                     + [Commit(ME, RecordReceipt(false, NOW))]
  const SEALBY := REWRITEBY + [Commit(ME, RecordReplay(14, 13, NOW))]
                  + [Commit(ME, Transition(Verifying, EngineerCompleted, NOW)), Confirm(ME), Commit(ME, ClearPending)]
  const OBSERVEBY := SEALBY + [Commit(ME, StartVerifier(NOW))] + [Commit(ME, Observe(15, 16, NOW))]
  const REVIEWBY := OBSERVEBY + [Commit(ME, Admit(NOW)), Confirm(ME), Commit(ME, ClearPending)]

  lemma Ends()
    ensures CursorOf([E1]) == C1 && CursorOf([E1] + [E2]) == C2 && CursorOf([E1] + [E2] + [E3]) == C3
    ensures CursorOf([E1] + [E2] + [E3] + [E4]) == C4
  {
    hide Waiting, Second, Checked;
  }

  lemma WaitLeads()
    ensures Leads(ClosedState(RETRY), Nothing, Transition(RetryPending, RetryRequired, NOW),
              Waiting(C1).(pending := Some(E2)), Nothing)
    ensures Cleared(Waiting(C1).(pending := Some(E2))) == Waiting(C2)
  {
  }

  lemma AgainLeads()
    ensures Leads(Waiting(C2), Opened(ROOT2), ClaimRetry(ROOT2, NOW),
              Second(NotStarted, None, None, C2).(pending := Some(E3)), Nothing)
    ensures Cleared(Second(NotStarted, None, None, C2).(pending := Some(E3)))
         == Second(NotStarted, None, None, C3)
  {
  }

  lemma Call2Leads()
    ensures var idle := Second(NotStarted, None, None, C3);
            var started := Second(Started(2, NOW), None, None, C3);
            var answered := Second(COMPLETED2, None, None, C3);
            && Leads(idle, Nothing, StartExecutor(NOW), started, MayInvoke)
            && Leads(started, Answered(ANSWER2), RecordOutcome(ANSWER2, NOW), answered, Nothing)
            && Leads(answered, Nothing, RecordResult(NOW), RESULTED2, Nothing)
  {
  }

  lemma Write2Leads()
    ensures Leads(RESULTED2, Nothing, PrepareWrite(NOW), WRITING2, Nothing)
    ensures Leads(WRITING2, Executed(false), RecordReceipt(false, NOW), RESOLVED2, Nothing)
  {
    hide WrittenFiles;
    WrittenList();
    assert [] + [WRITTEN2] == [WRITTEN2];
    assert [] + [Receipt(7, 2, BEFORE2, AFTER2)] == [Receipt(7, 2, BEFORE2, AFTER2)];
  }

  lemma Seal2Leads()
    ensures var sealed := Checked(Engineering, 3, VerifierNotStarted, C3);
            && Leads(RESOLVED2, Nothing, RecordReplay(14, 13, NOW), sealed, Nothing)
            && Leads(sealed, Nothing, Transition(Verifying, EngineerCompleted, NOW),
                 Checked(Verifying, 4, VerifierNotStarted, C3).(pending := Some(E4)), Nothing)
            && Cleared(Checked(Verifying, 4, VerifierNotStarted, C3).(pending := Some(E4)))
               == Checked(Verifying, 4, VerifierNotStarted, C4)
  {
    hide BridgeOf;
  }

  lemma Begin2Leads()
    ensures Leads(Checked(Verifying, 4, VerifierNotStarted, C4), Nothing, StartVerifier(NOW), Checked(Verifying, 4, BEGUN, C4),
              Nothing)
    ensures Leads(Checked(Verifying, 4, BEGUN, C4), Nothing, Observe(15, 16, NOW), Checked(Verifying, 4, OBSERVED, C4), Nothing)
  {
    hide BridgeOf;
  }

  lemma Admit2Leads()
    ensures Leads(Checked(Verifying, 4, OBSERVED, C4), Nothing, Admit(NOW),
              Checked(Reviewing, 5, ADMITTED, C4).(pending := Some(E5)), Nothing)
    ensures Cleared(Checked(Reviewing, 5, ADMITTED, C4).(pending := Some(E5))) == Checked(Reviewing, 5, ADMITTED, C5)
  {
    hide BridgeOf;
  }

  lemma AgainStands()
    ensures Stands(AGAINBY, Second(NotStarted, None, None, C3), Nothing, [E1] + [E2] + [E3], BOTH)
  {
    hide Stands, Leads, PhaseEventOf;
    CallStands(TWICE, AGAIN);
    CloseLeads(RETRY);
    Ends();
    WaitLeads();
    AgainLeads();
    var called := CallOf(TWICE, AGAIN);
    Commits(called, RETRY, Nothing, [E1], EMPTY, CloseWorkspace, ClosedState(RETRY), Nothing);
    Goes(called + [Commit(ME, CloseWorkspace)], ClosedState(RETRY), Nothing, [E1], EMPTY,
      Transition(RetryPending, RetryRequired, NOW), Waiting(C1).(pending := Some(E2)));
    Opens(WAITBY, Waiting(C2), [E1] + [E2], EMPTY, ROOT2);
    assert EMPTY[40 := []] == BOTH;
    Goes(WAITBY + [OpenRoot(ME, ROOT2)], Waiting(C2), Opened(ROOT2), [E1] + [E2], BOTH, ClaimRetry(ROOT2, NOW),
      Second(NotStarted, None, None, C2).(pending := Some(E3)));
  }

  lemma Resulted2Stands()
    ensures Stands(RESULTBY, RESULTED2, Nothing, [E1] + [E2] + [E3], BOTH)
  {
    hide Stands, Leads, PhaseEventOf;
    AgainStands();
    Call2Leads();
    var events := [E1] + [E2] + [E3];
    var started := Second(Started(2, NOW), None, None, C3);
    var answered := Second(COMPLETED2, None, None, C3);
    var begun := AGAINBY + [Commit(ME, StartExecutor(NOW))];
    Commits(AGAINBY, Second(NotStarted, None, None, C3), Nothing, events, BOTH, StartExecutor(NOW),
      started, MayInvoke);
    Calls(begun, started, events, BOTH, ANSWER2);
    Commits(CALLBY, started, Answered(ANSWER2), events, BOTH, RecordOutcome(ANSWER2, NOW), answered, Nothing);
    Commits(CALLBY + [Commit(ME, RecordOutcome(ANSWER2, NOW))], answered, Nothing, events, BOTH, RecordResult(NOW), RESULTED2,
      Nothing);
  }

  lemma Resolved2Stands()
    ensures Stands(REWRITEBY, RESOLVED2, Nothing, [E1] + [E2] + [E3], REWROTE)
  {
    hide Stands, Leads, PhaseEventOf;
    Resulted2Stands();
    Write2Leads();
    var events := [E1] + [E2] + [E3];
    var prepared := RESULTBY + [Commit(ME, PrepareWrite(NOW))];
    Commits(RESULTBY, RESULTED2, Nothing, events, BOTH, PrepareWrite(NOW), WRITING2, Nothing);
    Executes(prepared, WRITING2, events, BOTH, false);
    assert Handled(WRITING2, BOTH, false) == REWROTE;
    Commits(prepared + [Execute(ME, false)], WRITING2, Executed(false), events, REWROTE, RecordReceipt(false, NOW), RESOLVED2,
      Nothing);
  }

  lemma Observed2Stands()
    ensures Stands(OBSERVEBY, Checked(Verifying, 4, OBSERVED, C4), Nothing, [E1] + [E2] + [E3] + [E4], REWROTE)
  {
    hide Stands, Leads, PhaseEventOf, BridgeOf;
    Resolved2Stands();
    Ends();
    Seal2Leads();
    Begin2Leads();
    var events := [E1] + [E2] + [E3];
    var sealed := Checked(Engineering, 3, VerifierNotStarted, C3);
    Commits(REWRITEBY, RESOLVED2, Nothing, events, REWROTE, RecordReplay(14, 13, NOW), sealed, Nothing);
    Goes(REWRITEBY + [Commit(ME, RecordReplay(14, 13, NOW))], sealed, Nothing, events, REWROTE,
      Transition(Verifying, EngineerCompleted, NOW), Checked(Verifying, 4, VerifierNotStarted, C3).(pending := Some(E4)));
    Commits(SEALBY, Checked(Verifying, 4, VerifierNotStarted, C4), Nothing, events + [E4], REWROTE, StartVerifier(NOW),
      Checked(Verifying, 4, BEGUN, C4), Nothing);
    Commits(SEALBY + [Commit(ME, StartVerifier(NOW))], Checked(Verifying, 4, BEGUN, C4), Nothing, events + [E4], REWROTE,
      Observe(15, 16, NOW), Checked(Verifying, 4, OBSERVED, C4), Nothing);
  }

  lemma Reviewing2Stands()
    ensures Stands(REVIEWBY, Checked(Reviewing, 5, ADMITTED, C5), Nothing, [E1] + [E2] + [E3] + [E4] + [E5], REWROTE)
  {
    hide Stands, Leads, PhaseEventOf, BridgeOf;
    Ends();
    Observed2Stands();
    Admit2Leads();
    Goes(OBSERVEBY, Checked(Verifying, 4, OBSERVED, C4), Nothing, [E1] + [E2] + [E3] + [E4], REWROTE, Admit(NOW),
      Checked(Reviewing, 5, ADMITTED, C4).(pending := Some(E5)));
  }

  /** A run can pass in its second attempt; its chain is refused, and no passing pair is ever logged for it. */
  lemma ARetriedRunIsNeverProjected()
    ensures exists actions :: PassedInVain(Run(Start(BASE), actions))
  {
    Reviewing2Stands();
    hide Run, St, BridgeOf, PhaseEventOf;
    BaseIsFresh();
    var w := Run(Start(BASE), REVIEWBY);
    assert w.state.Some? && w.state.value.phase.Reviewing? && w.state.value.pending.None? && w.state.value.attempt == 2 by {
      ReviewingState();
    }
    forall p ensures ReviewProjection.Project(w.log, w.state.value, p) == w.log {
      ReviewProjection.RetriedRunsAreNeverProjected(BASE, REVIEWBY, p);
    }
    RewrittenBridge();
    assert PassedInVain(w);
  }

  lemma RewrittenBridge()
    ensures Checked(Reviewing, 5, ADMITTED, C5).bridge == Some(BRIDGE2) && BRIDGE2.diff.changed == [5]
  {
    assert BRIDGE2.diff.changed == ChangedPaths([], [FILE]) == [FILE.path] + ChangedPaths([], [FILE][1..]);
    assert [FILE][1..] == [];
  }

  lemma ReviewingState()
    ensures var s := Checked(Reviewing, 5, ADMITTED, C5); s.phase.Reviewing? && s.pending.None? && s.attempt == 2
  {
    hide BridgeOf, PhaseEventOf;
  }

  ghost predicate PassedInVain(w: World) {
    && w.state.Some? && w.state.value.phase.Reviewing? && w.state.value.pending.None? && w.state.value.attempt == 2
    && w.state.value.bridge.Some? && w.state.value.bridge.value.diff.changed == [5]
    && forall p :: ReviewProjection.Project(w.log, w.state.value, p) == w.log
  }
}
