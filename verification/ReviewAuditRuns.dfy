/** Runs of the review controller: racing drivers and crashes around one compare-and-swap cell. The
    Reviewer and the Auditor are each called at most once per run, phases only move forward, and every
    unresolved review can take a step the store accepts. */
module ReviewAuditRuns {
  import opened Common
  import opened RuntimeTypes
  import opened ReviewAuditKernel

  type DriverId = int

  // ---------------------------------------------------------------- the controller's writes

  datatype Command =
    | BeginReview(now: Time)
    | RecordReview(reviewed: ReviewOutcome, now: Time)
    | OpenAudit(inputs: Id, now: Time)
    | BeginAudit(inputs: Id, now: Time)
    | RecordAudit(audited: AuditOutcome, now: Time)
    | ResolvePass(now: Time)
    | DirectRepair(successor: RunId, now: Time)
    | Escalate(reason: Reason, now: Time)

  predicate EscalationReached(s: ReviewState, reason: Reason) {
    match s.phase
    case UnderReview =>
      (match s.review
       case ReviewNotStarted => reason.EvidenceInvalid?
       case ReviewStarted(_) => reason.ReviewerOutcomeUnknown?
       case ReviewRecorded(_, _, _) =>
         if !ReviewCompleted(s.review) then reason.ReviewerExecutionFailed?
         else reason.EvidenceInvalid? && !SoundReview(s.packet, s.review.outcome.decision))
    case UnderAudit =>
      && s.audit.Some?
      && (match s.audit.value
          case AuditNotStarted => reason.EvidenceInvalid?
          case AuditStarted(_) => reason.AuditorOutcomeUnknown?
          case AuditRecorded(_, _, _) =>
            if !ReviewCompleted(s.review) then false
            else if !AuditCompleted(s.audit) then reason.AuditorExecutionFailed?
            else if !BothSound(s) || Verdicts(s, Pass, Pass) then reason.EvidenceInvalid?
            else if Verdicts(s, Fail, Fail) then
              reason.RepairBudgetExhausted? && s.packet.cycle >= s.packet.maxCycles
            else reason.VerdictDisagreement?)
    case _ => false
  }

  predicate Enabled(s: ReviewState, cmd: Command) {
    && s.time <= cmd.now
    && match cmd
       case BeginReview(_) => s.phase.UnderReview? && s.review.ReviewNotStarted?
       case RecordReview(_, now) => s.phase.UnderReview? && s.review.ReviewStarted? && s.review.startedAt <= now
       case OpenAudit(_, _) =>
         s.phase.UnderReview? && ReviewCompleted(s.review) && SoundReview(s.packet, s.review.outcome.decision)
       case BeginAudit(inputs, _) =>
         && s.phase.UnderAudit? && s.audit == Some(AuditNotStarted)
         && s.auditPacket.Some? && s.auditPacket.value.inputs == inputs
       case RecordAudit(_, now) =>
         s.phase.UnderAudit? && s.audit.Some? && s.audit.value.AuditStarted? && s.audit.value.startedAt <= now
       case ResolvePass(_) => s.phase.UnderAudit? && BothSound(s) && Verdicts(s, Pass, Pass)
       case DirectRepair(successor, _) =>
         && s.phase.UnderAudit? && BothSound(s) && Verdicts(s, Fail, Fail) && s.packet.cycle < s.packet.maxCycles
         && s.auditPacket.Some?
         && successor == Successor(s.packet.root, s.packet.cycle + 1, s.review.outcome.result, s.audit.value.outcome.result)
       case Escalate(reason, _) => EscalationReached(s, reason)
  }

  function BuildDirective(s: ReviewState, successor: RunId): Directive
    requires BothCompleted(s) && s.auditPacket.Some?
  {
    Directive(s.packet.root, s.packet.run, successor, s.packet.goal, s.packet.task,
      s.packet.cycle, s.packet.cycle + 1, s.packet.maxCycles, s.packet.priorDirective,
      s.review.outcome.result, s.audit.value.outcome.result, s.auditPacket.value.inputs, UnsatisfiedCriteria(s))
  }

  /** An escalation drops the audit packet only when the audit had not begun. */
  function Escalated(s: ReviewState, reason: Reason, now: Time): ReviewState {
    var dropped :=
      s.phase.UnderReview?
      && (reason.ReviewerOutcomeUnknown? || reason.ReviewerExecutionFailed? || reason.EvidenceInvalid?);
    var packet := if dropped then None else s.auditPacket;
    s.(phase := OwnerEscalated, auditPacket := packet, audit := if packet.None? then None else s.audit,
       directive := None, resolution := Some(Escalation(reason)), time := now)
  }

  function Next(s: ReviewState, cmd: Command): ReviewState
    requires Enabled(s, cmd)
  {
    match cmd
    case BeginReview(now) => s.(review := ReviewStarted(now), time := now)
    case RecordReview(reviewed, now) => s.(review := ReviewRecorded(s.review.startedAt, reviewed, now), time := now)
    case OpenAudit(inputs, now) =>
      s.(phase := UnderAudit,
         auditPacket := Some(AuditPacket(s.review.outcome.result, s.review.outcome.decision, inputs)),
         audit := Some(AuditNotStarted), time := now)
    case BeginAudit(_, now) => s.(audit := Some(AuditStarted(now)), time := now)
    case RecordAudit(audited, now) =>
      s.(audit := Some(AuditRecorded(s.audit.value.startedAt, audited, now)), time := now)
    case ResolvePass(now) =>
      s.(phase := ResolvedPass,
         resolution := Some(PassResolution(s.review.outcome.result, s.audit.value.outcome.result)), time := now)
    case DirectRepair(successor, now) =>
      var directive := BuildDirective(s, successor);
      s.(phase := RepairDirected, directive := Some(directive),
         resolution := Some(RepairResolution(directive, successor)), time := now)
    case Escalate(reason, now) => Escalated(s, reason, now)
  }

  lemma CallWritesAreAccepted(s: ReviewState, cmd: Command)
    requires ValidReviewState(s) && Enabled(s, cmd)
    requires cmd.BeginReview? || cmd.RecordReview? || cmd.OpenAudit? || cmd.BeginAudit? || cmd.RecordAudit?
    ensures ValidReviewSuccessor(s, Next(s, cmd))
  {
  }

  lemma PassIsAccepted(s: ReviewState, now: Time)
    requires ValidReviewState(s) && Enabled(s, ResolvePass(now))
    ensures ValidReviewSuccessor(s, Next(s, ResolvePass(now)))
  {
  }

  lemma RepairIsAccepted(s: ReviewState, successor: RunId, now: Time)
    requires ValidReviewState(s) && Enabled(s, DirectRepair(successor, now))
    ensures ValidReviewSuccessor(s, Next(s, DirectRepair(successor, now)))
  {
    var findings := s.review.outcome.decision.findings + s.audit.value.outcome.decision.findings;
    SortedCriteriaAreExactlyThose(findings);
    assert findings[0] in SortedCriteria(findings);
    hide SortedCriteria;
  }

  lemma EscalationIsAccepted(s: ReviewState, reason: Reason, now: Time)
    requires ValidReviewState(s) && Enabled(s, Escalate(reason, now))
    ensures ValidReviewSuccessor(s, Next(s, Escalate(reason, now)))
  {
    hide SortedCriteria;
  }

  /** The kernel accepts every write the controller attempts on a valid state. */
  lemma EveryWriteIsAccepted(s: ReviewState, cmd: Command)
    requires ValidReviewState(s) && Enabled(s, cmd)
    ensures ValidReviewSuccessor(s, Next(s, cmd))
  {
    hide ValidReviewState, ValidReviewSuccessor, Enabled, Next;
    match cmd
    case ResolvePass(now) => PassIsAccepted(s, now);
    case DirectRepair(successor, now) => RepairIsAccepted(s, successor, now);
    case Escalate(reason, now) => EscalationIsAccepted(s, reason, now);
    case _ => CallWritesAreAccepted(s, cmd);
  }

  /** What a driver was given: the auditor's inputs, and the successor run it is prepared to start. */
  datatype Input = Input(inputs: Id, successor: Option<RunId>)

  function DerivedSuccessor(s: ReviewState): RunId
    requires BothCompleted(s)
  {
    Successor(s.packet.root, s.packet.cycle + 1, s.review.outcome.result, s.audit.value.outcome.result)
  }

  /** The step a driver takes, given whether the evidence is still current; none when its input is refused. */
  function StepOf(s: ReviewState, current: bool, input: Input, now: Time): Option<Command> {
    match s.phase
    case UnderReview =>
      Some(match s.review
           case ReviewNotStarted => if current then BeginReview(now) else Escalate(EvidenceInvalid, now)
           case ReviewStarted(_) => Escalate(ReviewerOutcomeUnknown, now)
           case ReviewRecorded(_, outcome, _) =>
             if !outcome.Reviewed? then Escalate(ReviewerExecutionFailed, now)
             else if !SoundReview(s.packet, outcome.decision) then Escalate(EvidenceInvalid, now)
             else OpenAudit(input.inputs, now))
    case _ =>
      if s.audit.None? || s.audit.value.AuditStarted? then Some(Escalate(AuditorOutcomeUnknown, now))
      else if s.audit.value.AuditNotStarted? then
        if s.auditPacket.None? || s.auditPacket.value.inputs != input.inputs then None
        else Some(if current then BeginAudit(input.inputs, now) else Escalate(EvidenceInvalid, now))
      else if !BothCompleted(s) then Some(Escalate(AuditorExecutionFailed, now))
      else if !BothSound(s) then Some(Escalate(EvidenceInvalid, now))
      else if Verdicts(s, Pass, Pass) then Some(if current then ResolvePass(now) else Escalate(EvidenceInvalid, now))
      else if !Verdicts(s, Fail, Fail) then Some(Escalate(VerdictDisagreement, now))
      else if s.packet.cycle >= s.packet.maxCycles then Some(Escalate(RepairBudgetExhausted, now))
      else if input.successor != Some(DerivedSuccessor(s)) then None
      else Some(DirectRepair(DerivedSuccessor(s), now))
  }

  /** The audit is about to start on other inputs than it was opened with. */
  predicate OtherInputs(s: ReviewState, input: Input) {
    s.phase.UnderAudit? && s.audit == Some(AuditNotStarted) && s.auditPacket.Some? && s.auditPacket.value.inputs != input.inputs
  }

  /** A repair is due, and the driver is prepared for another successor, or for none. */
  predicate OtherSuccessor(s: ReviewState, input: Input) {
    && s.phase.UnderAudit? && BothSound(s) && Verdicts(s, Fail, Fail) && s.packet.cycle < s.packet.maxCycles
    && input.successor != Some(DerivedSuccessor(s))
  }

  /** No unresolved review is a dead end: from any valid one, whatever the evidence says, a driver is refused
      exactly for one of two inputs that do not fit, and otherwise its step is enabled, accepted, and closer
      to a resolution. */
  lemma EveryUnresolvedReviewMovesOn(s: ReviewState, current: bool, input: Input, now: Time)
    requires ValidReviewState(s) && !Resolved(s.phase) && s.time <= now
    ensures StepOf(s, current, input, now).None? <==> OtherInputs(s, input) || OtherSuccessor(s, input)
    ensures StepOf(s, current, input, now).Some? ==>
              var cmd := StepOf(s, current, input, now).value;
              Enabled(s, cmd) && ValidReviewSuccessor(s, Next(s, cmd)) && Remaining(Next(s, cmd)) < Remaining(s)
  {
    if StepOf(s, current, input, now).Some? {
      var cmd := StepOf(s, current, input, now).value;
      assert Enabled(s, cmd);
      hide ValidReviewState, ValidReviewSuccessor, Enabled, Next;
      EveryWriteIsAccepted(s, cmd);
      EveryWriteDecreases(s, Next(s, cmd));
    }
  }

  // ---------------------------------------------------------------- drivers, crashes and races

  datatype Note =
    | Nothing
    | MayReview | InReview | ReviewAnswered(reviewed: ReviewOutcome)
    | MayAudit | InAudit | AuditAnswered(audited: AuditOutcome)

  datatype Driver = Driver(revision: int, state: Option<ReviewState>, note: Note)

  datatype World = World(
    revision: int, state: Option<ReviewState>, drivers: map<DriverId, Driver>,
    reviewerCalls: int, auditorCalls: int)

  datatype Action =
    | Load(d: DriverId)
    | Stop(d: DriverId)
    | Install(d: DriverId, packet: Packet, now: Time)
    | Commit(d: DriverId, cmd: Command)
    | CallReviewer(d: DriverId)
    | ReviewerReturns(d: DriverId, reviewed: ReviewOutcome)
    | CallAuditor(d: DriverId)
    | AuditorReturns(d: DriverId, audited: AuditOutcome)

  const START := World(0, None, map[], 0, 0)

  predicate Current(w: World, d: DriverId) {
    d in w.drivers && w.drivers[d].revision == w.revision && w.drivers[d].state == w.state
  }

  predicate Permitted(driver: Driver, cmd: Command) {
    match cmd
    case RecordReview(reviewed, _) => driver.note == ReviewAnswered(reviewed)
    case RecordAudit(audited, _) => driver.note == AuditAnswered(audited)
    case _ => true
  }

  predicate CommitApplies(w: World, d: DriverId, cmd: Command) {
    && Current(w, d) && w.state.Some? && Permitted(w.drivers[d], cmd)
    && Enabled(w.state.value, cmd) && ValidReviewSuccessor(w.state.value, Next(w.state.value, cmd))
  }

  function Told(w: World, d: DriverId, note: Note): World
    requires d in w.drivers
  {
    w.(drivers := w.drivers[d := w.drivers[d].(note := note)])
  }

  function Wrote(w: World, d: DriverId, n: ReviewState, note: Note): World {
    w.(revision := w.revision + 1, state := Some(n), drivers := w.drivers[d := Driver(w.revision + 1, Some(n), note)])
  }

  function NoteAfter(cmd: Command): Note {
    match cmd case BeginReview(_) => MayReview case BeginAudit(_, _) => MayAudit case _ => Nothing
  }

  predicate Has(w: World, d: DriverId, note: Note) { d in w.drivers && w.drivers[d].note == note }

  function Apply(w: World, a: Action): World {
    match a
    case Load(d) => w.(drivers := w.drivers[d := Driver(w.revision, w.state, Nothing)])
    case Stop(d) => w.(drivers := w.drivers - {d})
    case Install(d, packet, now) =>
      if Current(w, d) && w.state.None? && ValidReviewState(InitialReview(packet, now)) then
        Wrote(w, d, InitialReview(packet, now), Nothing)
      else w
    case Commit(d, cmd) =>
      if CommitApplies(w, d, cmd) then Wrote(w, d, Next(w.state.value, cmd), NoteAfter(cmd)) else w
    case CallReviewer(d) =>
      if Has(w, d, MayReview) then Told(w.(reviewerCalls := w.reviewerCalls + 1), d, InReview) else w
    case ReviewerReturns(d, reviewed) => if Has(w, d, InReview) then Told(w, d, ReviewAnswered(reviewed)) else w
    case CallAuditor(d) =>
      if Has(w, d, MayAudit) then Told(w.(auditorCalls := w.auditorCalls + 1), d, InAudit) else w
    case AuditorReturns(d, audited) => if Has(w, d, InAudit) then Told(w, d, AuditAnswered(audited)) else w
  }

  function Run(w: World, actions: seq<Action>): World
    decreases |actions|
  {
    if actions == [] then w else Apply(Run(w, actions[..|actions| - 1]), actions[|actions| - 1])
  }

  // ---------------------------------------------------------------- what every run keeps

  predicate Snapshots(w: World) {
    forall d :: d in w.drivers ==>
      && w.drivers[d].revision <= w.revision
      && (w.drivers[d].revision == w.revision ==> w.drivers[d].state == w.state)
  }

  predicate ReviewCallsFit(s: ReviewState, calls: int) {
    match s.review
    case ReviewNotStarted => calls == 0
    case ReviewStarted(_) => 0 <= calls <= 1
    case ReviewRecorded(_, _, _) => calls == 1
  }

  predicate AuditCallsFit(s: ReviewState, calls: int) {
    if s.audit.None? || s.audit.value.AuditNotStarted? then calls == 0
    else if s.audit.value.AuditStarted? then 0 <= calls <= 1
    else calls == 1
  }

  predicate NoteFits(w: World, s: ReviewState, note: Note) {
    match note
    case MayReview => s.review.ReviewStarted? && w.reviewerCalls == 0
    case InReview => w.reviewerCalls == 1
    case ReviewAnswered(_) => w.reviewerCalls == 1
    case MayAudit => s.audit.Some? && s.audit.value.AuditStarted? && w.auditorCalls == 0
    case InAudit => w.auditorCalls == 1
    case AuditAnswered(_) => w.auditorCalls == 1
    case Nothing => true
  }

  predicate Alone(w: World, note: Note) {
    forall d, e ::
      (d in w.drivers && e in w.drivers && w.drivers[d].note == note && w.drivers[e].note == note) ==> d == e
  }

  predicate Inv(w: World) {
    && Snapshots(w)
    && match w.state
       case None =>
         w.reviewerCalls == 0 && w.auditorCalls == 0 && forall d :: d in w.drivers ==> w.drivers[d].note.Nothing?
       case Some(s) =>
         && ValidReviewState(s)
         && ReviewCallsFit(s, w.reviewerCalls) && AuditCallsFit(s, w.auditorCalls)
         && (forall d :: d in w.drivers ==> NoteFits(w, s, w.drivers[d].note))
         && Alone(w, MayReview) && Alone(w, MayAudit)
  }

  /** Which writes touch the two call records. */
  lemma CallChanges(s: ReviewState, cmd: Command)
    requires ValidReviewState(s) && Enabled(s, cmd)
    ensures var n := Next(s, cmd);
            && n.packet == s.packet
            && (cmd.BeginReview? ==> s.review.ReviewNotStarted? && n.review.ReviewStarted?)
            && (cmd.RecordReview? ==> s.review.ReviewStarted? && n.review.ReviewRecorded?)
            && (!cmd.BeginReview? && !cmd.RecordReview? ==> n.review == s.review)
            && (cmd.BeginAudit? ==>
                  s.audit == Some(AuditNotStarted) && n.audit.Some? && n.audit.value.AuditStarted?)
            && (cmd.RecordAudit? ==>
                  s.audit.Some? && s.audit.value.AuditStarted? && n.audit.Some? && n.audit.value.AuditRecorded?)
            && (!cmd.BeginAudit? && !cmd.RecordAudit? ==>
                  n.audit == s.audit || (s.audit.None? && n.audit == Some(AuditNotStarted)))
  {
    hide SortedCriteria;
  }

  lemma CommitKeepsInv(w: World, d: DriverId, cmd: Command)
    requires Inv(w) && CommitApplies(w, d, cmd)
    ensures Inv(Wrote(w, d, Next(w.state.value, cmd), NoteAfter(cmd)))
  {
    var s, n := w.state.value, Next(w.state.value, cmd);
    CallChanges(s, cmd);
    assert ValidReviewState(n);
    assert NoteFits(w, s, w.drivers[d].note);
    hide ValidReviewState, ValidReviewSuccessor, Enabled, Next;
  }

  lemma InstallKeepsInv(w: World, d: DriverId, packet: Packet, now: Time)
    requires Inv(w)
    ensures Inv(Apply(w, Install(d, packet, now)))
  {
    hide ValidReviewState;
  }

  lemma ActionKeepsInv(w: World, a: Action)
    requires Inv(w)
    ensures Inv(Apply(w, a))
  {
    match a
    case Install(d, packet, now) => InstallKeepsInv(w, d, packet, now);
    case Commit(d, cmd) => if CommitApplies(w, d, cmd) { CommitKeepsInv(w, d, cmd); } hide CommitApplies;
    case CallReviewer(d) =>
      hide ValidReviewState;
      if Has(w, d, MayReview) && w.state.Some? { assert NoteFits(w, w.state.value, w.drivers[d].note); }
    case CallAuditor(d) =>
      hide ValidReviewState;
      if Has(w, d, MayAudit) && w.state.Some? { assert NoteFits(w, w.state.value, w.drivers[d].note); }
    case _ => hide ValidReviewState;
  }

  lemma {:induction false} EveryRunKeepsInv(actions: seq<Action>)
    ensures Inv(Run(START, actions))
    decreases |actions|
  {
    if actions != [] {
      var front := actions[..|actions| - 1];
      EveryRunKeepsInv(front);
      ActionKeepsInv(Run(START, front), actions[|actions| - 1]);
    }
  }

  /** Over every run, with crashes and racing drivers, the Reviewer and the Auditor are each called at most
      once, and never again once their outcome is recorded. */
  lemma ReviewerAndAuditorAreCalledAtMostOnce(actions: seq<Action>)
    ensures var w := Run(START, actions);
            && 0 <= w.reviewerCalls <= 1 && 0 <= w.auditorCalls <= 1
            && (w.auditorCalls == 1 ==>
                  w.reviewerCalls == 1 && w.state.Some? && ReviewCompleted(w.state.value.review))
  {
    EveryRunKeepsInv(actions);
    hide Run, SoundReview;
  }

  predicate Forward(s: ReviewState, n: ReviewState) {
    && n.packet == s.packet
    && Remaining(n) <= Remaining(s)
    && (Resolved(s.phase) ==> n == s)
    && (s.phase.UnderAudit? ==> !n.phase.UnderReview?)
  }

  lemma ActionMovesForward(w: World, a: Action)
    requires Inv(w) && w.state.Some?
    ensures Apply(w, a).state.Some? && Forward(w.state.value, Apply(w, a).state.value)
  {
    if a.Commit? && CommitApplies(w, a.d, a.cmd) {
      EveryWriteDecreases(w.state.value, Next(w.state.value, a.cmd));
      hide SortedCriteria, BothSound, SoundReview, SoundAudit, ValidEscalation, ValidResolution;
    } else {
      hide Enabled, Next, ValidReviewSuccessor, ValidReviewState;
    }
  }

  /** Phases only move forward, whatever happens later; a resolved review never changes again; and the
      number of writes left is bounded from the start. */
  lemma {:induction false} RunsMoveForward(w: World, actions: seq<Action>)
    requires Inv(w) && w.state.Some?
    ensures var v := Run(w, actions);
            Inv(v) && v.state.Some? && Forward(w.state.value, v.state.value)
            && v.revision - w.revision <= Remaining(w.state.value) - Remaining(v.state.value)
    decreases |actions|
  {
    hide Apply, Inv;
    if actions != [] {
      var front := actions[..|actions| - 1];
      RunsMoveForward(w, front);
      var v := Run(w, front);
      ActionKeepsInv(v, actions[|actions| - 1]);
      ActionMovesForward(v, actions[|actions| - 1]);
      ActionSpends(v, actions[|actions| - 1]);
    }
  }

  lemma ActionSpends(w: World, a: Action)
    requires Inv(w) && w.state.Some?
    ensures Apply(w, a).state.Some?
    ensures Apply(w, a).revision - w.revision <= Remaining(w.state.value) - Remaining(Apply(w, a).state.value)
  {
    hide Enabled, Next, ValidReviewSuccessor, ValidReviewState;
    if a.Commit? && CommitApplies(w, a.d, a.cmd) {
      EveryWriteDecreases(w.state.value, Next(w.state.value, a.cmd));
    }
  }

  /** A run that ends in a pass got there through two completed calls whose decisions both pass and are both
      supported by the candidate's evidence. */
  lemma PassesAreEarned(actions: seq<Action>)
    requires var w := Run(START, actions); w.state.Some? && w.state.value.phase.ResolvedPass?
    ensures var w := Run(START, actions);
            && BothSound(w.state.value) && Verdicts(w.state.value, Pass, Pass)
            && w.reviewerCalls == 1 && w.auditorCalls == 1
  {
    EveryRunKeepsInv(actions);
    hide Run;
    PassMeansTwoPasses(Run(START, actions).state.value);
  }
}
