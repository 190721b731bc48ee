/** Runs of the Engineer-to-Verifier controller: any number of drivers, each holding the state it
    loaded, share one compare-and-swap cell, one append-only log and the workspace roots. A crash drops
    a driver with everything it knew; a resume is a new load. Every action is one atomic step, so a
    crash between any two durable effects is a run. */
module EngineerVerifierRuns {
  import opened Common
  import opened WorkspaceFiles
  import opened RuntimeTypes
  import opened EngineerVerifierKernel
  import opened EngineerVerifierCommands

  type DriverId = int

  datatype Inspection = Missing | ExpectedBefore | IntendedAfter | ThirdState

  /** What a driver has just learnt, and may act on with its next write. */
  datatype Note =
    | Nothing
    | Confirmed                       // the pending event is the tail of the log
    | MayInvoke                       // it committed the executor call itself
    | Calling                         // the executor is running
    | Answered(outcome: Outcome)
    | Inspected(found: Inspection)
    | Executed(denied: bool)          // the broker returned a receipt
    | SawDenial                       // it just recorded a denial
    | SawReconciled                   // it just recorded a reconciled write
    | Opened(root: Lease)             // a new root exists
    | Fenced                          // it committed the recovery of the lease, and has not got the root yet

  datatype Driver = Driver(revision: int, state: Option<EvState>, owns: bool, note: Note)

  /** The durable world and the drivers. `committed` lists the events of the committed transitions and
      `invocations` the attempts whose executor call began; nothing reads them. */
  datatype World = World(
    revision: int,
    state: Option<EvState>,
    log: seq<RunEvent>,
    roots: map<Id, seq<File>>,
    drivers: map<DriverId, Driver>,
    committed: seq<RunEvent>,
    invocations: seq<int>)

  datatype Action =
    | Load(d: DriverId)
    | Stop(d: DriverId)
    | OpenRoot(d: DriverId, root: Lease)
    | Install(d: DriverId, plan: Plan, cursor: Option<Cursor>, now: Time)
    | Commit(d: DriverId, cmd: Command)
    | Confirm(d: DriverId)
    | Invoke(d: DriverId)
    | Return(d: DriverId, outcome: Outcome)
    | Inspect(d: DriverId)
    | Execute(d: DriverId, denied: bool)
    | ExecuteStale(d: DriverId)
    | RecoverRoot(d: DriverId)
    | RemoveRoot(token: Id)
    | AppendOther(e: RunEvent)

  /** It owns the lease, or may yet get it. */
  predicate HoldsLease(driver: Driver) { driver.owns || driver.note.Fenced? }

  function Start(base: seq<RunEvent>): World { World(0, None, base, map[], map[], [], []) }

  function Told(w: World, d: DriverId, note: Note): World
    requires d in w.drivers
  {
    w.(drivers := w.drivers[d := w.drivers[d].(note := note)])
  }

  /** The driver's snapshot is the durable state, so its next compare-and-swap would find it. */
  predicate Current(w: World, d: DriverId) {
    d in w.drivers && w.drivers[d].revision == w.revision && w.drivers[d].state == w.state
  }

  // ---------------------------------------------------------------- the compare-and-swap cell

  /** A denial fails the run only in the call that recorded it. */
  predicate FollowsDenial(s: EvState, trigger: Trigger) {
    trigger.FailureRecorded? && s.phase.Engineering? && LastDenied(s)
    && !(s.workspace.Some? && s.workspace.value.cleanupRequired)
  }

  /** With every effect resolved, the effect loop accepts a cancellation only right after a reconciliation. */
  predicate FollowsReconciliation(s: EvState, trigger: Trigger) {
    trigger.CancellationAccepted? && s.phase.Engineering? && HasCompleted(s) && |s.ledger| == |s.plan.effects|
  }

  /** What a command needs the driver to hold: the lease, and what it just learnt. */
  predicate Permitted(driver: Driver, s: EvState, cmd: Command) {
    match cmd
    case ClearPending => driver.note.Confirmed?
    case StartExecutor(_) => driver.owns
    case RecordOutcome(outcome, _) => driver.owns && driver.note == Answered(outcome)
    case CloseWorkspace => driver.owns || Terminal(s.phase)
    case Transition(_, trigger, _) =>
      && (driver.owns || s.phase.RetryPending?)
      && (FollowsDenial(s, trigger) ==> driver.note.SawDenial?)
      && (FollowsReconciliation(s, trigger) ==> driver.note.SawReconciled?)
    case RecordResult(_) => driver.owns
    case PrepareWrite(_) => driver.owns
    case RecordReceipt(denied, _) => driver.owns && driver.note == Executed(denied)
    case RecordReconciled(_) => driver.owns && driver.note == Inspected(IntendedAfter)
    case DropPrepared(_) => driver.owns && driver.note == Inspected(ExpectedBefore)
    case MarkCleanup(_) =>
      driver.owns && (driver.note == Inspected(Missing) || driver.note == Inspected(ThirdState))
    case RecordReplay(_, _, _) => driver.owns
    case StartVerifier(_) => driver.owns
    case Observe(_, _, _) => driver.owns
    case Admit(_) => driver.owns
    case RequestCancellation(_, _) => true
    case Heartbeat(_) => true
    case ClaimRecovery(_, _) => true
    case ClaimRetry(root, _) => driver.note == Opened(root)
  }

  predicate CommitApplies(w: World, d: DriverId, cmd: Command) {
    && Current(w, d) && w.state.Some?
    && Permitted(w.drivers[d], w.state.value, cmd)
    && Accepted(w.state.value, cmd)
  }

  function AfterWrite(driver: Driver, revision: int, n: EvState, cmd: Command): Driver {
    Driver(revision, Some(n),
      (driver.owns && !cmd.ClaimRecovery?) || cmd.ClaimRetry?,
      match cmd
      case StartExecutor(_) => MayInvoke
      case ClaimRecovery(_, _) => Fenced
      case RecordReceipt(denied, _) => if denied then SawDenial else Nothing
      case RecordReconciled(_) => SawReconciled
      case _ => Nothing)
  }

  function Written(w: World, d: DriverId, n: EvState, driver: Driver, events: seq<RunEvent>): World {
    w.(revision := w.revision + 1, state := Some(n), drivers := w.drivers[d := driver],
       committed := w.committed + events)
  }

  function NewEvents(s: EvState, n: EvState): seq<RunEvent> {
    if s.pending.None? && n.pending.Some? then [n.pending.value] else []
  }

  function CommitStep(w: World, d: DriverId, cmd: Command): World {
    if CommitApplies(w, d, cmd) then
      var n := Next(w.state.value, cmd);
      Written(w, d, n, AfterWrite(w.drivers[d], w.revision + 1, n, cmd), NewEvents(w.state.value, n))
    else w
  }

  /** The end of the log, or an earlier one: the log may have grown since the driver looked. */
  predicate SeenCursor(log: seq<RunEvent>, cursor: Option<Cursor>) {
    cursor.Some? ==>
      0 <= cursor.value.sequence < |log| && log[cursor.value.sequence].id == cursor.value.id
  }

  predicate InstallApplies(w: World, d: DriverId, plan: Plan, cursor: Option<Cursor>, now: Time) {
    && Current(w, d) && w.state.None? && w.drivers[d].note.Opened? && SeenCursor(w.log, cursor)
    && !TargetMatches(plan, w.drivers[d].note.root.files)
    && ValidInitialInstall(Claimed(plan, w.drivers[d].note.root, cursor, now))
  }

  function InstallStep(w: World, d: DriverId, plan: Plan, cursor: Option<Cursor>, now: Time): World {
    if InstallApplies(w, d, plan, cursor, now) then
      var n := Claimed(plan, w.drivers[d].note.root, cursor, now);
      Written(w, d, n, Driver(w.revision + 1, Some(n), true, Nothing), [n.pending.value])
    else w
  }

  // ---------------------------------------------------------------- reconciling the log

  /** The pending event still says what the state says. */
  predicate FrozenMatches(s: EvState, e: RunEvent) {
    && ValidPending(e)
    && e.payload.PhaseNote? && ValidPhaseEvent(e)
    && e.payload.projection == ProjectionOf(s, e.payload.projection.from, e.payload.projection.trigger)
  }

  predicate ReadableLog(log: seq<RunEvent>) {
    Linked(log) && forall i :: 0 <= i < |log| ==> ValidPhaseEvent(log[i])
  }

  /** Finds the pending event at the tail of the log, or appends it where the known cursor ends. */
  function ReconciledLog(s: EvState, log: seq<RunEvent>): Option<seq<RunEvent>>
    requires s.pending.Some?
  {
    var e := s.pending.value;
    if !FrozenMatches(s, e) || !ReadableLog(log) then None
    else if Mentions(log, e.id) then (if log[|log| - 1] == e then Some(log) else None)
    else if CursorOf(log) == s.projected then Some(log + [e])
    else None
  }

  predicate HoldsPending(w: World, d: DriverId) {
    d in w.drivers && w.drivers[d].state.Some? && w.drivers[d].state.value.pending.Some?
  }

  function ConfirmStep(w: World, d: DriverId): World {
    if HoldsPending(w, d) && ReconciledLog(w.drivers[d].state.value, w.log).Some? then
      Told(w.(log := ReconciledLog(w.drivers[d].state.value, w.log).value), d, Confirmed)
    else w
  }

  // ---------------------------------------------------------------- the workspace broker

  function InspectRoot(roots: map<Id, seq<File>>, w: Workspace, p: Prepared): Inspection {
    if w.token !in roots then Missing
    else if roots[w.token] == p.before.files then ExpectedBefore
    else if roots[w.token] == p.after.files then IntendedAfter
    else ThirdState
  }

  /** The broker acts only for a live, uncancelled Engineering state, on the next planned effect, and
      writes only what is durably prepared, on the files it last recorded. */
  predicate BrokerActs(w: World, s: EvState) {
    && s.pending.None? && Operable(s) && s.cancellation.None? && NextEffect(s)
    && (NextIsWrite(s) <==> s.prepared.Some?)
    && (s.workspace.value.token in w.roots ==> w.roots[s.workspace.value.token] == s.workspace.value.current.files)
  }

  /** It refuses, with a receipt, when the root is not there. */
  predicate BrokerAllows(w: World, d: DriverId, denied: bool) {
    && Current(w, d) && w.drivers[d].owns && w.state.Some?
    && BrokerActs(w, w.state.value)
    && (denied || w.state.value.workspace.value.token in w.roots)
  }

  function RootsAfterEffect(w: World, s: EvState): map<Id, seq<File>>
    requires s.workspace.Some?
  {
    if s.prepared.None? then w.roots else w.roots[s.workspace.value.token := s.prepared.value.after.files]
  }

  function ExecuteStep(w: World, d: DriverId, denied: bool): World {
    if BrokerAllows(w, d, denied) then
      Told(w.(roots := if denied then w.roots else RootsAfterEffect(w, w.state.value)), d, Executed(denied))
    else w
  }

  /** The owner of the lease may still act after someone else wrote the state (a heartbeat), as long as
      nobody took the lease over; it will not be able to record what it did. */
  predicate StaleOwnerActs(w: World, d: DriverId) {
    && d in w.drivers && w.drivers[d].owns && !Current(w, d)
    && (forall e :: e in w.drivers && Current(w, e) ==> !w.drivers[e].owns)
    && w.state.Some? && BrokerActs(w, w.state.value)
    && w.state.value.workspace.value.token in w.roots
  }

  function ExecuteStaleStep(w: World, d: DriverId): World {
    if StaleOwnerActs(w, d) then w.(roots := RootsAfterEffect(w, w.state.value)) else w
  }

  /** A recovered lease is worth its root: it must be there, with the files last recorded or those of the
      prepared write, and nobody may have taken the lease over since. */
  predicate RootFits(roots: map<Id, seq<File>>, s: EvState) {
    && s.workspace.Some? && s.workspace.value.token in roots
    && (|| roots[s.workspace.value.token] == s.workspace.value.current.files
        || (s.prepared.Some? && roots[s.workspace.value.token] == s.prepared.value.after.files))
  }

  predicate SameFence(s: EvState, n: EvState) {
    && s.workspace.Some? && n.workspace.Some? && !n.workspace.value.closed
    && s.workspace.value.token == n.workspace.value.token
    && s.workspace.value.epoch == n.workspace.value.epoch && s.workspace.value.fence == n.workspace.value.fence
    && s.workspace.value.instance == n.workspace.value.instance
  }

  predicate CanRecover(w: World, d: DriverId) {
    && d in w.drivers && w.drivers[d].note.Fenced? && w.drivers[d].state.Some? && w.state.Some?
    && SameFence(w.drivers[d].state.value, w.state.value)
    && RootFits(w.roots, w.drivers[d].state.value)
  }

  function RecoverStep(w: World, d: DriverId): World {
    if CanRecover(w, d) then w.(drivers := w.drivers[d := w.drivers[d].(owns := true, note := Nothing)]) else w
  }

  /** A root that was opened and not yet adopted is removed only by the driver that opened it. */
  predicate CanRemove(w: World, token: Id) {
    forall d :: d in w.drivers && w.drivers[d].note.Opened? ==> w.drivers[d].note.root.token != token
  }

  predicate CanOpen(w: World, d: DriverId, root: Lease) {
    && Current(w, d) && root.token !in w.roots
    && (w.state.None? || (w.state.value.phase.RetryPending? && Closed(w.state.value)))
  }

  function Apply(w: World, a: Action): World {
    match a
    case Load(d) => w.(drivers := w.drivers[d := Driver(w.revision, w.state, false, Nothing)])
    case Stop(d) => w.(drivers := w.drivers - {d})
    case OpenRoot(d, root) =>
      if CanOpen(w, d, root) then Told(w.(roots := w.roots[root.token := root.files]), d, Opened(root)) else w
    case Install(d, plan, cursor, now) => InstallStep(w, d, plan, cursor, now)
    case Commit(d, cmd) => CommitStep(w, d, cmd)
    case Confirm(d) => ConfirmStep(w, d)
    case Invoke(d) =>
      if d in w.drivers && w.drivers[d].note.MayInvoke? && w.drivers[d].state.Some? then
        Told(w.(invocations := w.invocations + [w.drivers[d].state.value.attempt]), d, Calling)
      else w
    case Return(d, outcome) =>
      if d in w.drivers && w.drivers[d].note.Calling? then Told(w, d, Answered(outcome)) else w
    case Inspect(d) =>
      if Current(w, d) && w.drivers[d].owns && w.state.Some? && w.state.value.phase.Engineering?
         && w.state.value.prepared.Some? && w.state.value.workspace.Some? then
        Told(w, d, Inspected(InspectRoot(w.roots, w.state.value.workspace.value, w.state.value.prepared.value)))
      else w
    case Execute(d, denied) => ExecuteStep(w, d, denied)
    case ExecuteStale(d) => ExecuteStaleStep(w, d)
    case RecoverRoot(d) => RecoverStep(w, d)
    case RemoveRoot(token) => if CanRemove(w, token) then w.(roots := w.roots - {token}) else w
    case AppendOther(e) =>
      if !e.payload.PhaseNote? && !e.id.PhaseEventId? && e.sequence == |w.log| && e.previous == LastId(w.log)
         && !Mentions(w.log, e.id)
      then w.(log := w.log + [e])
      else w
  }

  function Run(w: World, actions: seq<Action>): World
    decreases |actions|
  {
    if actions == [] then w else Apply(Run(w, actions[..|actions| - 1]), actions[|actions| - 1])
  }
}
