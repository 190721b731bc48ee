/** The vocabulary shared by the durable controllers: plans, ledgers, phases, and the events of a
    run's append-only log. Stable identifiers and times are integers. A digest is represented by the
    value it covers, so two digests are equal exactly when their inputs are. One run's log is
    modelled, so events carry no run id. */
module RuntimeTypes {
  import opened Common
  import opened WorkspaceFiles

  type Id = int
  type Time = int

  // ---------------------------------------------------------------- plans and ledgers

  datatype Effect =
    | ReadFile(id: Id, path: Path)
    | WriteFile(id: Id, path: Path, content: int)

  datatype Plan = Plan(goal: Id, task: Id, invocation: Id, maxAttempts: int, effects: seq<Effect>)

  /** The digest of a snapshot covers its lease and generation as well as its files. */
  datatype Snapshot = Snapshot(lease: Id, generation: int, files: seq<File>)

  datatype Resolution = ReadObserved | WriteApplied | WriteReconciledApplied | Denied

  datatype Receipt = Receipt(effect: Id, attempt: int, before: Snapshot, after: Snapshot)

  datatype Reconciliation = Reconciliation(effect: Id, attempt: int, before: Snapshot, after: Snapshot)

  datatype Entry = Entry(
    ordinal: int, effect: Id, attempt: int,
    resolution: Resolution,
    receipt: Option<Receipt>,
    reconciliation: Option<Reconciliation>,
    before: Snapshot, after: Snapshot)

  datatype RoleResult = RoleResult(id: Id, attempt: int, completed: bool)

  // ---------------------------------------------------------------- phases

  datatype Phase =
    | Planned
    | Engineering
    | RetryPending
    | Verifying
    | Reviewing
    | Failed
    | Cancelled

  datatype Trigger =
    | ClaimAccepted
    | CancellationAccepted
    | EngineerCompleted
    | ExecutorOutcomeUnknown
    | RetryRequired
    | RetryClaimAccepted
    | RetryExhausted
    | FailureRecorded
    | VerificationEvidenceAccepted

  predicate Terminal(phase: Phase) { phase.Reviewing? || phase.Failed? || phase.Cancelled? }

  predicate TransitionAllowed(from: Phase, trigger: Trigger, to: Phase) {
    match from
    case Planned =>
      (trigger.ClaimAccepted? && to.Engineering?) || (trigger.CancellationAccepted? && to.Cancelled?)
    case Engineering =>
      || (trigger.EngineerCompleted? && to.Verifying?)
      || (trigger.RetryRequired? && to.RetryPending?)
      || (trigger.ExecutorOutcomeUnknown? && to.Failed?)
      || (trigger.FailureRecorded? && to.Failed?)
      || (trigger.CancellationAccepted? && to.Cancelled?)
    case RetryPending =>
      || (trigger.RetryClaimAccepted? && to.Engineering?)
      || (trigger.RetryExhausted? && to.Failed?)
      || (trigger.CancellationAccepted? && to.Cancelled?)
    case Verifying =>
      || (trigger.VerificationEvidenceAccepted? && to.Reviewing?)
      || (trigger.FailureRecorded? && to.Failed?)
      || (trigger.CancellationAccepted? && to.Cancelled?)
    case _ => false
  }

  // ---------------------------------------------------------------- events

  /** The execution binding: which attempt of which invocation. */
  datatype Binding = Binding(invocation: Id, attempt: int)

  /** What the digest of a run's state covers. The executor call, the workspace record, the prepared
      write, the cancellation, the pending projection and the cursor are not covered. */
  datatype StateDigest = StateDigest(
    phase: Phase, phaseRevision: int, attempt: int,
    plan: Plan, binding: Binding, ledger: seq<Entry>,
    result: Option<RoleResult>, transcript: Option<Id>)

  /** What a phase event says about its transition; `state` is the digest of the state it leads to, and
      the goal and task are part of the plan. */
  datatype Projection = Projection(
    from: Phase, to: Phase, trigger: Trigger, phaseRevision: int, attempt: int,
    binding: Binding, plan: Plan, state: StateDigest, ledger: seq<Entry>,
    result: Option<RoleResult>, transcript: Option<Id>, at: Time)

  datatype Verdict = Pass | Fail

  datatype ReviewDecision = ReviewDecision(id: Id, verdict: Verdict, decidedAt: Time, findings: seq<Id>)

  datatype AuditDecision = AuditDecision(
    id: Id, review: Id, verdict: Verdict, decidedAt: Time, findings: seq<Id>)

  datatype RunStatus =
    | DraftRun | AcceptedRun | PlannedRun | RunningRun | AwaitingApproval | ReviewingRun | AuditingRun
    | CompletedRun | FailedRun | CancelledRun

  /** Task statuses matter only through equality. */
  type TaskStatus = int

  const PENDING: TaskStatus := 0

  datatype GuardOutcome = Allow(gates: seq<int>) | Pause(gates: seq<int>) | Deny(reasons: seq<int>)

  /** Evidence references and the criteria they are claimed to satisfy. */
  datatype CompletionClaim = CompletionClaim(
    evidence: seq<Id>, acceptance: seq<Id>, verification: seq<Id>, done: seq<Id>)

  datatype Role = Coordinator | Engineer | Reviewer | Auditor | Owner

  datatype EventId =
    | PhaseEventId(phaseRevision: int, from: Phase, to: Phase, trigger: Trigger, attempt: int, state: StateDigest)
    | ReviewEventId(review: Id)
    | AuditEventId(audit: Id)
    | Named(name: Id)

  datatype Payload =
    | RunCreated(goal: Id, tasks: seq<Id>)
    | PhaseNote(projection: Projection)
    | ReviewDecided(review: ReviewDecision)
    | AuditDecided(audit: AuditDecision)
    | RequirementsSet(reviewer: bool, auditor: bool)
    | EvidenceReferenced(evidence: Id)
    | CompletionClaimed(claim: CompletionClaim)
    | StatusMoved(before: RunStatus, after: RunStatus)
    | PlanRecorded(waves: seq<seq<Id>>, modes: seq<int>)
    | TaskMoved(moved: Id, taskBefore: TaskStatus, taskAfter: TaskStatus)
    | GuardDecided(outcome: GuardOutcome)
    | OutputGiven(worker: Id, specialist: Role, prose: Id)
    | FinalResponse(answer: Id)
    | Noted(text: Id)

  datatype RunEvent = RunEvent(
    id: EventId, sequence: int, previous: Option<EventId>, at: Time, producer: Role, payload: Payload)

  /** The event id covers the transition and the state digest, not the time or the binding. */
  function DerivePhaseEventId(p: Projection): EventId {
    PhaseEventId(p.phaseRevision, p.from, p.to, p.trigger, p.attempt, p.state)
  }

  predicate ValidProjection(p: Projection) {
    p.phaseRevision != 0 && p.attempt != 0 && TransitionAllowed(p.from, p.trigger, p.to)
  }

  /** An event that claims to be a phase event must carry a canonical projection. */
  predicate ValidPhaseEvent(e: RunEvent) {
    e.payload.PhaseNote? ==>
      && e.producer.Coordinator?
      && ValidProjection(e.payload.projection)
      && e.payload.projection.at == e.at
      && e.id == DerivePhaseEventId(e.payload.projection)
  }

  // ---------------------------------------------------------------- the log

  datatype Cursor = Cursor(sequence: int, id: EventId)

  function LastId(log: seq<RunEvent>): Option<EventId> {
    if log == [] then None else Some(log[|log| - 1].id)
  }

  predicate LinkedAt(log: seq<RunEvent>, i: int)
    requires 0 <= i < |log|
  {
    log[i].sequence == i && log[i].previous == LastId(log[..i])
  }

  /** Sequence numbers are positions and every event names its predecessor. */
  predicate Linked(log: seq<RunEvent>) {
    forall i :: 0 <= i < |log| ==> LinkedAt(log, i)
  }

  function CursorOf(log: seq<RunEvent>): Option<Cursor> {
    if log == [] then None else Some(Cursor(log[|log| - 1].sequence, log[|log| - 1].id))
  }

  predicate Mentions(log: seq<RunEvent>, id: EventId) {
    exists i :: 0 <= i < |log| && log[i].id == id
  }

  /** The phase events of a log, in order. */
  function PhaseEvents(log: seq<RunEvent>): seq<RunEvent> {
    if log == [] then []
    else
      PhaseEvents(log[..|log| - 1])
      + if log[|log| - 1].payload.PhaseNote? then [log[|log| - 1]] else []
  }

  lemma PhaseEventsAppend(log: seq<RunEvent>, e: RunEvent)
    ensures PhaseEvents(log + [e]) == PhaseEvents(log) + if e.payload.PhaseNote? then [e] else []
  {
    assert (log + [e])[..|log|] == log;
  }

  /** Appending an event that continues from the cursor keeps the log linked. */
  lemma AppendKeepsLinked(log: seq<RunEvent>, e: RunEvent)
    requires Linked(log) && e.sequence == |log| && e.previous == LastId(log)
    ensures Linked(log + [e])
  {
    forall i | 0 <= i < |log + [e]| ensures LinkedAt(log + [e], i) {
      assert (log + [e])[..i] == if i < |log| then log[..i] else log;
      if i < |log| { assert LinkedAt(log, i); }
    }
  }

  lemma MentionsAppend(log: seq<RunEvent>, e: RunEvent, id: EventId)
    ensures Mentions(log + [e], id) <==> Mentions(log, id) || e.id == id
  {
    var after := log + [e];
    if Mentions(log, id) {
      var i :| 0 <= i < |log| && log[i].id == id;
      assert after[i].id == id;
    }
    if e.id == id { assert after[|log|].id == id; }
  }

  lemma {:induction false} PhaseEventsAreInTheLog(log: seq<RunEvent>, e: RunEvent)
    ensures e in PhaseEvents(log) <==> e in log && e.payload.PhaseNote?
  {
    if log != [] {
      PhaseEventsAreInTheLog(log[..|log| - 1], e);
      assert log == log[..|log| - 1] + [log[|log| - 1]];
    }
  }
}
