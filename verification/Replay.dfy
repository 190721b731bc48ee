/** Replaying one run's event stream: a fold that checks the links, the status transitions and the
    completion gate, and rebuilds what the stream established. */
module Replay {
  import opened Common
  import opened RuntimeTypes
  import opened EngineerVerifierTerminal

  /** What the goal asks for. The last two fields are the decisions its evidence rules support, given the
      completion claim and the references recorded so far. */
  datatype Goal = Goal(
    id: Id,
    reviewRequired: bool, auditRequired: bool,
    minimumEvidence: int,
    requireAcceptance: bool, acceptance: seq<Id>,
    requireVerification: bool, verification: seq<Id>,
    done: seq<Id>,
    soundReviews: set<(CompletionClaim, seq<Id>, ReviewDecision)>,
    soundAudits: set<(CompletionClaim, seq<Id>, ReviewDecision, AuditDecision)>)

  datatype Replayed = Replayed(
    status: RunStatus,
    tasks: map<Id, TaskStatus>,
    planned: bool,
    responded: bool,
    references: seq<Id>,
    requirements: Option<(bool, bool)>,
    reviews: seq<ReviewDecision>,
    audits: seq<AuditDecision>,
    claim: Option<CompletionClaim>)

  predicate TerminalStatus(status: RunStatus) {
    status.CompletedRun? || status.FailedRun? || status.CancelledRun?
  }

  predicate StatusAllowed(before: RunStatus, after: RunStatus) {
    match before
    case DraftRun => after.AcceptedRun? || after.CancelledRun?
    case AcceptedRun => after.PlannedRun? || after.CancelledRun?
    case PlannedRun => after.RunningRun? || after.CancelledRun?
    case RunningRun =>
      || after.AwaitingApproval? || after.ReviewingRun? || after.CompletedRun? || after.FailedRun? || after.CancelledRun?
    case AwaitingApproval => after.RunningRun? || after.FailedRun? || after.CancelledRun?
    case ReviewingRun =>
      || after.RunningRun? || after.AuditingRun? || after.CompletedRun? || after.FailedRun? || after.CancelledRun?
    case AuditingRun => after.ReviewingRun? || after.CompletedRun? || after.FailedRun? || after.CancelledRun?
    case _ => false
  }

  predicate NeedsAuditor(goal: Goal, r: Replayed) {
    goal.auditRequired || (r.requirements.Some? && r.requirements.value.1)
  }

  predicate NeedsReviewer(goal: Goal, r: Replayed) {
    goal.reviewRequired || NeedsAuditor(goal, r) || (r.requirements.Some? && r.requirements.value.0)
  }

  /** The status a run must complete from. */
  function CompletionGate(goal: Goal, r: Replayed): RunStatus {
    if NeedsAuditor(goal, r) then AuditingRun else if NeedsReviewer(goal, r) then ReviewingRun else RunningRun
  }

  predicate Covers(claimed: seq<Id>, wanted: seq<Id>) { forall c :: c in wanted ==> c in claimed }

  predicate ClaimSuffices(goal: Goal, claim: CompletionClaim, references: seq<Id>) {
    && |set x | x in claim.evidence| >= (if goal.minimumEvidence > 1 then goal.minimumEvidence else 1)
    && (goal.requireAcceptance ==> Covers(claim.acceptance, goal.acceptance))
    && (goal.requireVerification ==> Covers(claim.verification, goal.verification))
    && Covers(claim.done, goal.done)
    && Covers(references, claim.evidence)
  }

  /** The review and audit gate: what is required is there, and everything that is there is supported and
      passes. */
  predicate DecisionsPass(goal: Goal, r: Replayed, claim: CompletionClaim) {
    if r.reviews == [] then r.audits == [] && !NeedsReviewer(goal, r)
    else
      && (claim, r.references, r.reviews[0]) in goal.soundReviews
      && r.reviews[0].verdict.Pass?
      && if r.audits == [] then !NeedsAuditor(goal, r)
         else
           (claim, r.references, r.reviews[0], r.audits[0]) in goal.soundAudits && r.audits[0].verdict.Pass?
  }

  predicate CompletionAllowed(goal: Option<Goal>, r: Replayed) {
    && goal.Some? && r.claim.Some?
    && r.status == CompletionGate(goal.value, r)
    && ClaimSuffices(goal.value, r.claim.value, r.references)
    && DecisionsPass(goal.value, r, r.claim.value)
  }

  /** A plan puts every declared task in exactly one wave, and no other task. */
  predicate PlanFits(waves: seq<seq<Id>>, tasks: map<Id, TaskStatus>) {
    var listed := Flattened(waves);
    && NoRepeats(listed)
    && (forall t :: t in listed ==> t in tasks)
    && (forall t :: t in tasks ==> t in listed)
  }

  function Flattened(waves: seq<seq<Id>>): seq<Id> {
    if waves == [] then [] else waves[0] + Flattened(waves[1..])
  }

  function ReplayStep(goal: Option<Goal>, r: Replayed, e: RunEvent): Option<Replayed> {
    match e.payload
    case RunCreated(_, _) => Some(r)
    case PhaseNote(_) => Some(r)
    case Noted(_) => Some(r)
    case GuardDecided(_) => Some(r)
    case PlanRecorded(waves, _) =>
      if r.planned || !PlanFits(waves, r.tasks) then None else Some(r.(planned := true))
    case TaskMoved(task, before, after) =>
      if task !in r.tasks || r.tasks[task] != before then None else Some(r.(tasks := r.tasks[task := after]))
    case OutputGiven(task, specialist, _) =>
      if task !in r.tasks || specialist != e.producer || specialist.Coordinator? || specialist.Owner? then None
      else Some(r)
    case FinalResponse(_) =>
      if r.responded || !e.producer.Coordinator? then None else Some(r.(responded := true))
    case RequirementsSet(reviewer, auditor) =>
      if r.requirements.Some? then None else Some(r.(requirements := Some((reviewer, auditor))))
    case EvidenceReferenced(evidence) =>
      if evidence in r.references then None else Some(r.(references := r.references + [evidence]))
    case CompletionClaimed(claim) => if r.claim.Some? then None else Some(r.(claim := Some(claim)))
    case ReviewDecided(review) =>
      if r.reviews != [] || !e.producer.Reviewer? then None else Some(r.(reviews := [review]))
    case AuditDecided(audit) =>
      if r.audits != [] || !e.producer.Auditor? || r.reviews == [] || r.reviews[0].id != audit.review then None
      else Some(r.(audits := [audit]))
    case StatusMoved(before, after) =>
      if before != r.status || TerminalStatus(before) || !StatusAllowed(before, after) then None
      else if after.CompletedRun? && !CompletionAllowed(goal, r) then None
      else Some(r.(status := after))
  }

  function Created(tasks: seq<Id>): Replayed {
    Replayed(DraftRun, map t | t in tasks :: PENDING, false, false, [], None, [], [], None)
  }

  predicate NoRepeats(ids: seq<Id>) { forall i, j :: 0 <= i < j < |ids| ==> ids[i] != ids[j] }

  function ReplayFold(goal: Option<Goal>, tasks: seq<Id>, events: seq<RunEvent>): Option<Replayed>
    decreases |events|
  {
    if events == [] then Some(Created(tasks))
    else
      var before := ReplayFold(goal, tasks, events[..|events| - 1]);
      if before.None? then None else ReplayStep(goal, before.value, events[|events| - 1])
  }

  predicate CreatedWell(events: seq<RunEvent>, goal: Option<Goal>)
    requires events != []
  {
    && events[0].payload.RunCreated?
    && NoRepeats(events[0].payload.tasks)
    && (goal.Some? ==> goal.value.id == events[0].payload.goal)
  }

  function ReplayRun(events: seq<RunEvent>, goal: Option<Goal>): Option<Replayed> {
    if ValidEventChain(events) && CreatedWell(events, goal) then
      ReplayFold(goal, events[0].payload.tasks, events)
    else None
  }

  predicate CompletesRun(e: RunEvent) { e.payload.StatusMoved? && e.payload.after.CompletedRun? }

  // ---------------------------------------------------------------- what replay gives

  /** Every non-empty prefix of a stream that replays, replays. */
  lemma ReplayIsPrefixClosed(events: seq<RunEvent>, e: RunEvent, goal: Option<Goal>)
    requires events != [] && ReplayRun(events + [e], goal).Some?
    ensures ReplayRun(events, goal).Some?
    ensures ReplayRun(events + [e], goal) == ReplayStep(goal, ReplayRun(events, goal).value, e)
    ensures e.sequence == |events| && e.previous == LastId(events) && !Mentions(events, e.id)
  {
    var after := events + [e];
    assert after[..|events|] == events && after[|events|] == e;
    PrefixIsLinked(after, |events|);
    PrefixIsUnique(after, |events|);
    assert LinkedAt(after, |events|);
    assert forall i :: 0 <= i < |events| ==> after[i] == events[i];
    hide ReplayStep, Linked;
  }

  /** And a stream that replays goes on with exactly the events that continue it and that the fold takes. */
  lemma ReplayGoesOn(events: seq<RunEvent>, e: RunEvent, goal: Option<Goal>)
    requires ReplayRun(events, goal).Some?
    requires e.sequence == |events| && e.previous == LastId(events) && !Mentions(events, e.id) && !e.payload.RunCreated?
    ensures ReplayRun(events + [e], goal) == ReplayStep(goal, ReplayRun(events, goal).value, e)
  {
    var after := events + [e];
    assert after[..|events|] == events && after[|events|] == e;
    AppendKeepsLinked(events, e);
    UniqueIdsAppend(events, e);
    assert forall i :: 0 <= i < |events| ==> after[i] == events[i];
    hide ReplayStep, Linked, UniqueIds;
  }

  /** An event already in the stream cannot be appended to it again. */
  lemma NoSecondCopy(events: seq<RunEvent>, e: RunEvent, goal: Option<Goal>)
    requires Mentions(events, e.id) && events != []
    ensures ReplayRun(events + [e], goal).None?
  {
    if ReplayRun(events + [e], goal).Some? { ReplayIsPrefixClosed(events, e, goal); }
  }

  /** A completed stream ends there: no further status move replays. */
  lemma CompletedIsFinal(events: seq<RunEvent>, e: RunEvent, goal: Option<Goal>)
    requires ReplayRun(events, goal).Some? && TerminalStatus(ReplayRun(events, goal).value.status)
    requires e.payload.StatusMoved?
    ensures ReplayRun(events + [e], goal).None?
  {
    if ReplayRun(events + [e], goal).Some? { ReplayIsPrefixClosed(events, e, goal); }
  }

  /** A stream that replays to a completed run moved there through the gate: on the claim, the references and
      the decisions the stream held at that moment. */
  lemma CompletionPassesTheGate(events: seq<RunEvent>, e: RunEvent, goal: Option<Goal>)
    requires events != [] && CompletesRun(e) && ReplayRun(events + [e], goal).Some?
    ensures ReplayRun(events, goal).Some? && CompletionAllowed(goal, ReplayRun(events, goal).value)
  {
    ReplayIsPrefixClosed(events, e, goal);
    hide ReplayRun, CompletionAllowed;
  }
}
