/** The durable review state of one candidate run and the rules the execution store enforces on it. The
    state digest covers the whole state, so a matching digest is a matching state. */
module ReviewAuditKernel {
  import opened Common
  import opened RuntimeTypes

  /** Run identities: a repair successor's id is derived from the chain's root, the cycle and both results,
      injectively. */
  datatype RunId =
    | Root(name: Id)
    | Successor(root: RunId, cycle: int, review: Id, audit: Id)

  datatype ReviewPhase = UnderReview | UnderAudit | ResolvedPass | RepairDirected | OwnerEscalated

  datatype Reason =
    | ReviewerOutcomeUnknown
    | AuditorOutcomeUnknown
    | ReviewerExecutionFailed
    | AuditorExecutionFailed
    | VerdictDisagreement
    | RepairBudgetExhausted
    | EvidenceInvalid

  /** The frozen candidate. `soundReviews` and `soundAudits` are the decisions its evidence supports: an
      audit decision is supported together with the review decision it is about. */
  datatype Packet = Packet(
    run: RunId, root: RunId, goal: Id, task: Id,
    cycle: int, maxCycles: int,
    priorRun: Option<RunId>, priorDirective: Option<Directive>,
    soundReviews: set<ReviewDecision>,
    soundAudits: set<(ReviewDecision, AuditDecision)>,
    issue6: StateDigest, evidence: Id)

  /** A directive's digest covers its fields; `prior` stands for the digest of the directive before it. */
  datatype Directive = Directive(
    root: RunId, failedRun: RunId, successorRun: RunId, goal: Id, task: Id,
    failedCycle: int, successorCycle: int, maxCycles: int,
    prior: Option<Directive>,
    review: Id, audit: Id, auditInputs: Id, criteria: seq<Id>)

  datatype ReviewOutcome = Reviewed(result: Id, decision: ReviewDecision) | ReviewNotCompleted

  datatype AuditOutcome = Audited(result: Id, decision: AuditDecision) | AuditNotCompleted

  datatype ReviewCall =
    | ReviewNotStarted
    | ReviewStarted(startedAt: Time)
    | ReviewRecorded(startedAt: Time, outcome: ReviewOutcome, recordedAt: Time)

  datatype AuditCall =
    | AuditNotStarted
    | AuditStarted(startedAt: Time)
    | AuditRecorded(startedAt: Time, outcome: AuditOutcome, recordedAt: Time)

  datatype AuditPacket = AuditPacket(result: Id, decision: ReviewDecision, inputs: Id)

  datatype Resolution =
    | PassResolution(review: Id, audit: Id)
    | RepairResolution(directive: Directive, successorRun: RunId)
    | Escalation(reason: Reason)

  datatype ReviewState = ReviewState(
    phase: ReviewPhase, packet: Packet,
    review: ReviewCall,
    auditPacket: Option<AuditPacket>, audit: Option<AuditCall>,
    directive: Option<Directive>, resolution: Option<Resolution>,
    time: Time)

  predicate Resolved(phase: ReviewPhase) {
    phase.ResolvedPass? || phase.RepairDirected? || phase.OwnerEscalated?
  }

  // ---------------------------------------------------------------- decisions

  /** A verdict is derived from the criteria found unsatisfied. */
  predicate SoundReview(p: Packet, d: ReviewDecision) {
    d in p.soundReviews && (d.verdict.Fail? <==> d.findings != [])
  }

  predicate SoundAudit(p: Packet, r: ReviewDecision, a: AuditDecision) {
    (r, a) in p.soundAudits && a.review == r.id && (a.verdict.Fail? <==> a.findings != [])
  }

  predicate ReviewCompleted(call: ReviewCall) { call.ReviewRecorded? && call.outcome.Reviewed? }

  predicate AuditCompleted(call: Option<AuditCall>) {
    call.Some? && call.value.AuditRecorded? && call.value.outcome.Audited?
  }

  predicate BothCompleted(s: ReviewState) { ReviewCompleted(s.review) && AuditCompleted(s.audit) }

  /** Both decisions are there and the evidence supports both. */
  predicate BothSound(s: ReviewState) {
    && BothCompleted(s)
    && SoundReview(s.packet, s.review.outcome.decision)
    && SoundAudit(s.packet, s.review.outcome.decision, s.audit.value.outcome.decision)
  }

  predicate Verdicts(s: ReviewState, review: Verdict, audit: Verdict)
    requires BothCompleted(s)
  {
    s.review.outcome.decision.verdict == review && s.audit.value.outcome.decision.verdict == audit
  }

  // ---------------------------------------------------------------- criteria to repair

  function InsertCriterion(c: Id, criteria: seq<Id>): seq<Id> {
    if criteria == [] || c < criteria[0] then [c] + criteria
    else if c == criteria[0] then criteria
    else [criteria[0]] + InsertCriterion(c, criteria[1..])
  }

  /** Sorted and without repetition. */
  function SortedCriteria(criteria: seq<Id>): seq<Id> {
    if criteria == [] then [] else InsertCriterion(criteria[0], SortedCriteria(criteria[1..]))
  }

  predicate StrictlySorted(criteria: seq<Id>) {
    forall i, j :: 0 <= i < j < |criteria| ==> criteria[i] < criteria[j]
  }

  lemma {:induction false} InsertCriterionSorts(c: Id, criteria: seq<Id>)
    requires StrictlySorted(criteria)
    ensures StrictlySorted(InsertCriterion(c, criteria))
    ensures forall x :: x in InsertCriterion(c, criteria) <==> x == c || x in criteria
  {
    if criteria != [] && criteria[0] < c {
      InsertCriterionSorts(c, criteria[1..]);
      var rest := InsertCriterion(c, criteria[1..]);
      var after := [criteria[0]] + rest;
      forall x | x in rest ensures criteria[0] < x {}
      forall i, j | 0 <= i < j < |after| ensures after[i] < after[j] {
        assert after[j] == rest[j - 1] && rest[j - 1] in rest;
        if i > 0 { assert after[i] == rest[i - 1]; }
      }
      assert criteria == [criteria[0]] + criteria[1..];
    }
  }

  /** The criteria sent to repair: every unsatisfied criterion of either decision, once, in order. */
  lemma {:induction false} SortedCriteriaAreExactlyThose(criteria: seq<Id>)
    ensures StrictlySorted(SortedCriteria(criteria))
    ensures forall x :: x in SortedCriteria(criteria) <==> x in criteria
  {
    if criteria != [] {
      SortedCriteriaAreExactlyThose(criteria[1..]);
      InsertCriterionSorts(criteria[0], SortedCriteria(criteria[1..]));
      assert criteria == [criteria[0]] + criteria[1..];
    }
  }

  function UnsatisfiedCriteria(s: ReviewState): seq<Id>
    requires BothCompleted(s)
  {
    SortedCriteria(s.review.outcome.decision.findings + s.audit.value.outcome.decision.findings)
  }

  // ---------------------------------------------------------------- valid states

  predicate ValidPacket(p: Packet) {
    && 1 <= p.maxCycles && 0 <= p.cycle <= p.maxCycles
    && (p.cycle == 0 <==> p.priorDirective.None?)
    && (p.cycle == 0 <==> p.priorRun.None?)
    && (p.cycle == 0 ==> p.root == p.run)
  }

  predicate ValidDirective(d: Directive) {
    && 1 <= d.maxCycles && 0 <= d.failedCycle < d.maxCycles
    && (d.failedCycle == 0 <==> d.prior.None?)
    && d.successorCycle == d.failedCycle + 1
    && d.successorRun == Successor(d.root, d.successorCycle, d.review, d.audit)
    && d.criteria != [] && StrictlySorted(d.criteria)
  }

  predicate ValidReviewCall(call: ReviewCall) { call.ReviewRecorded? ==> call.startedAt <= call.recordedAt }

  predicate ValidAuditCall(call: AuditCall) { call.AuditRecorded? ==> call.startedAt <= call.recordedAt }

  predicate DirectiveFits(s: ReviewState, d: Directive) {
    && ValidDirective(d)
    && d.failedRun == s.packet.run && d.root == s.packet.root && d.goal == s.packet.goal && d.task == s.packet.task
    && d.failedCycle == s.packet.cycle && d.maxCycles == s.packet.maxCycles
  }

  predicate ValidPhaseShape(s: ReviewState) {
    match s.phase
    case UnderReview => s.auditPacket.None? && s.audit.None? && s.directive.None? && s.resolution.None?
    case UnderAudit =>
      && s.review.ReviewRecorded? && s.auditPacket.Some? && s.audit.Some?
      && s.directive.None? && s.resolution.None?
    case ResolvedPass =>
      && s.review.ReviewRecorded? && s.audit.Some? && s.audit.value.AuditRecorded?
      && s.directive.None? && s.resolution.Some? && s.resolution.value.PassResolution?
    case RepairDirected =>
      && s.review.ReviewRecorded? && s.audit.Some? && s.audit.value.AuditRecorded?
      && s.directive.Some? && s.resolution.Some? && s.resolution.value.RepairResolution?
      && s.resolution.value == RepairResolution(s.directive.value, s.directive.value.successorRun)
    case OwnerEscalated => s.directive.None? && s.resolution.Some? && s.resolution.value.Escalation?
  }

  /** An audit packet binds the reviewer's completed, supported decision. */
  predicate ValidAuditPacket(s: ReviewState) {
    s.auditPacket.Some? ==>
      && ReviewCompleted(s.review)
      && s.auditPacket.value.result == s.review.outcome.result
      && s.auditPacket.value.decision == s.review.outcome.decision
      && SoundReview(s.packet, s.review.outcome.decision)
  }

  predicate ValidEscalation(s: ReviewState, reason: Reason) {
    match reason
    case ReviewerOutcomeUnknown => s.auditPacket.None? && s.review.ReviewStarted?
    case ReviewerExecutionFailed => s.auditPacket.None? && s.review.ReviewRecorded? && !ReviewCompleted(s.review)
    case AuditorOutcomeUnknown => s.audit.Some? && s.audit.value.AuditStarted?
    case AuditorExecutionFailed => s.audit.Some? && s.audit.value.AuditRecorded? && !AuditCompleted(s.audit)
    case VerdictDisagreement => BothSound(s) && !Verdicts(s, Pass, Pass) && !Verdicts(s, Fail, Fail)
    case RepairBudgetExhausted => BothSound(s) && Verdicts(s, Fail, Fail) && s.packet.cycle == s.packet.maxCycles
    case EvidenceInvalid =>
      if s.audit.None? then
        || s.review.ReviewNotStarted?
        || (ReviewCompleted(s.review) && s.auditPacket.None? && !SoundReview(s.packet, s.review.outcome.decision))
      else
        || s.audit.value.AuditNotStarted?
        || (s.audit.value.AuditRecorded? && (!BothSound(s) || Verdicts(s, Pass, Pass)))
  }

  predicate ValidResolution(s: ReviewState) {
    match s.phase
    case ResolvedPass =>
      && s.resolution.Some? && BothSound(s) && Verdicts(s, Pass, Pass)
      && s.resolution.value == PassResolution(s.review.outcome.result, s.audit.value.outcome.result)
    case RepairDirected =>
      && s.resolution.Some? && s.directive.Some? && s.auditPacket.Some? && BothSound(s) && Verdicts(s, Fail, Fail)
      && s.packet.cycle < s.packet.maxCycles
      && s.directive.value.review == s.review.outcome.result
      && s.directive.value.audit == s.audit.value.outcome.result
      && s.directive.value.auditInputs == s.auditPacket.value.inputs
      && s.directive.value.prior == s.packet.priorDirective
      && s.directive.value.criteria == UnsatisfiedCriteria(s)
    case OwnerEscalated => s.resolution.Some? && s.resolution.value.Escalation? && ValidEscalation(s, s.resolution.value.reason)
    case _ => true
  }

  predicate ValidReviewState(s: ReviewState) {
    && ValidPacket(s.packet)
    && ValidReviewCall(s.review)
    && (s.auditPacket.Some? <==> s.audit.Some?)
    && (s.audit.Some? ==> ValidAuditCall(s.audit.value))
    && (s.directive.Some? ==> DirectiveFits(s, s.directive.value))
    && ValidPhaseShape(s)
    && ValidAuditPacket(s)
    && ValidResolution(s)
  }

  function InitialReview(packet: Packet, now: Time): ReviewState {
    ReviewState(UnderReview, packet, ReviewNotStarted, None, None, None, None, now)
  }

  // ---------------------------------------------------------------- successors

  predicate EscalatesWith(n: ReviewState, reasons: set<Reason>) {
    n.phase.OwnerEscalated? && n.resolution.Some? && n.resolution.value.Escalation? && n.resolution.value.reason in reasons
  }

  predicate AllowedUnderReview(s: ReviewState, n: ReviewState) {
    if s.review.ReviewNotStarted? && n.review.ReviewStarted? then
      n.phase == s.phase && n.auditPacket.None? && n.audit.None? && n.resolution.None?
    else if s.review.ReviewStarted? && n.review.ReviewRecorded? then
      n.phase == s.phase && n.auditPacket.None? && n.audit.None? && n.resolution.None?
    else
      && n.review == s.review
      && match s.review
         case ReviewNotStarted => EscalatesWith(n, {EvidenceInvalid})
         case ReviewStarted(_) => EscalatesWith(n, {ReviewerOutcomeUnknown})
         case ReviewRecorded(_, _, _) =>
           || (n.phase.UnderAudit? && n.auditPacket.Some? && n.audit == Some(AuditNotStarted) && n.resolution.None?)
           || (EscalatesWith(n, {ReviewerExecutionFailed, EvidenceInvalid}) && n.auditPacket.None? && n.audit.None?)
  }

  predicate AllowedUnderAudit(s: ReviewState, n: ReviewState) {
    && s.audit.Some? && n.audit.Some?
    && s.review == n.review && s.auditPacket == n.auditPacket
    && if s.audit.value.AuditNotStarted? && n.audit.value.AuditStarted? then n.phase == s.phase && n.resolution.None?
       else if s.audit.value.AuditStarted? && n.audit.value.AuditRecorded? then n.phase == s.phase && n.resolution.None?
       else
         && n.audit == s.audit
         && match s.audit.value
            case AuditNotStarted => EscalatesWith(n, {EvidenceInvalid})
            case AuditStarted(_) => EscalatesWith(n, {AuditorOutcomeUnknown})
            case AuditRecorded(_, _, _) => Resolved(n.phase)
  }

  predicate ValidReviewSuccessor(s: ReviewState, n: ReviewState) {
    && ValidReviewState(s) && ValidReviewState(n)
    && !Resolved(s.phase) && s.packet == n.packet && s.time <= n.time
    && (s.phase.UnderReview? ==> AllowedUnderReview(s, n))
    && (s.phase.UnderAudit? ==> AllowedUnderAudit(s, n))
  }

  // ---------------------------------------------------------------- what the rules give

  /** How far a review still has to go. */
  function Remaining(s: ReviewState): (k: nat)
    ensures k <= 6
  {
    match s.phase
    case UnderReview =>
      (match s.review case ReviewNotStarted => 6 case ReviewStarted(_) => 5 case ReviewRecorded(_, _, _) => 4)
    case UnderAudit =>
      if s.audit.None? || s.audit.value.AuditNotStarted? then 3 else if s.audit.value.AuditStarted? then 2 else 1
    case _ => 0
  }

  /** Every accepted write comes closer to a resolution, and a resolved review is never written again. */
  lemma EveryWriteDecreases(s: ReviewState, n: ReviewState)
    requires ValidReviewSuccessor(s, n)
    ensures Remaining(n) < Remaining(s)
  {
    hide SoundReview, SoundAudit, ValidEscalation, SortedCriteria;
  }

  /** A valid pass is two supported Pass decisions, bound by their results. */
  lemma PassMeansTwoPasses(s: ReviewState)
    requires ValidReviewState(s) && s.phase.ResolvedPass?
    ensures BothSound(s) && Verdicts(s, Pass, Pass)
    ensures s.review.outcome.decision.findings == [] && s.audit.value.outcome.decision.findings == []
    ensures s.resolution == Some(PassResolution(s.review.outcome.result, s.audit.value.outcome.result))
  {
  }
}
