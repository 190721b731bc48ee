/** Completing a run. A Completed transition enters the log only through gates that recompute the verified
    material, consult the execution database and the review state, and replay the stream with the event
    appended; an append whose outcome is unknown is reconciled by its event id. One log writer per run. */
module GoalRuntime {
  import opened Common
  import opened RuntimeTypes
  import opened EngineerVerifierKernel
  import opened EngineerVerifierRuns
  import opened EngineerVerifierOutbox
  import opened EngineerVerifierTerminal
  import ReviewAuditKernel
  import opened Replay

  type Review = ReviewAuditKernel.ReviewState

  /** The execution database: absent, without this run, or with the run's controller states. */
  datatype Database =
    | NoDatabase
    | NoRun
    | Loaded(issue6: Option<EvState>, review: Option<Review>)

  /** Owner-bound inputs of a goal whose completion must be verified. */
  datatype Authority = Authority(goal: Goal, tasks: seq<Id>)

  datatype Policy = Disabled | Enforced(goals: map<Id, Authority>)

  datatype Material = Material(claim: CompletionClaim, references: seq<Id>)

  /** What is durable, and what the evidence bank and a fresh verification would say now. */
  datatype System = System(
    policy: Policy,
    log: seq<RunEvent>,
    database: Database,
    evidence: Option<Id>,
    material: Option<Material>)

  predicate RequiresVerification(goal: Goal) { goal.requireVerification && goal.verification != [] }

  datatype Managed = Unmanaged | ManagedBy(issue6: EvState, review: Option<Review>) | Unreadable

  /** Whether the run is managed by the Engineer-to-Verifier controller: by its database record, or by an
      authentic phase event in the log, which makes a missing record an error. */
  function LoadManaged(log: seq<RunEvent>, db: Database): Managed {
    var projected := PhaseEvents(log) != [];
    if !ReadableLog(log) then Unreadable
    else
      match db
      case Loaded(Some(issue6), review) => ManagedBy(issue6, review)
      case _ => if projected then Unreadable else Unmanaged
  }

  /** The authority of the run's goal under an enforced policy; the caller's goal must be that goal. */
  datatype Lookup = NoAuthority | Found(authority: Authority) | Mismatch

  function FindAuthority(policy: Policy, events: seq<RunEvent>, goal: Goal): Lookup {
    match policy
    case Disabled => NoAuthority
    case Enforced(goals) =>
      if events == [] || !events[0].payload.RunCreated? || events[0].payload.goal !in goals then Mismatch
      else
        var authority := goals[events[0].payload.goal];
        if authority.goal != goal || authority.tasks != events[0].payload.tasks then Mismatch else Found(authority)
  }

  /** The passing pair of a managed run, exactly, with the evidence it was reviewed on still current. */
  predicate PairAdmitted(issue6: EvState, review: Review, r: Replayed, evidence: Option<Id>) {
    && review.phase.ResolvedPass?
    && review.packet.issue6 == issue6.digest
    && review.resolution.Some? && review.resolution.value.PassResolution?
    && ReviewAuditKernel.BothCompleted(review)
    && ReviewAuditKernel.Verdicts(review, Pass, Pass)
    && review.resolution.value
       == ReviewAuditKernel.PassResolution(review.review.outcome.result, review.audit.value.outcome.result)
    && r.reviews == [review.review.outcome.decision]
    && r.audits == [review.audit.value.outcome.decision]
    && evidence == Some(review.packet.evidence)
  }

  /** Nothing to check for an unmanaged run. */
  predicate IndependentlyAdmitted(sys: System, r: Replayed) {
    match LoadManaged(sys.log, sys.database)
    case Unmanaged => true
    case ManagedBy(issue6, review) => review.Some? && PairAdmitted(issue6, review.value, r, sys.evidence)
    case Unreadable => false
  }

  predicate MaterialPersisted(m: Material, r: Replayed) {
    Covers(r.references, m.references) && r.claim == Some(m.claim)
  }

  // ---------------------------------------------------------------- the two ways to append

  /** Everything append_verified_completion checks before it writes. */
  predicate VerifiedAdmits(sys: System, e: RunEvent, goal: Goal) {
    && CompletesRun(e) && sys.log != []
    && !LoadManaged(sys.log, sys.database).Unreadable?
    && FindAuthority(sys.policy, sys.log, goal).Found?
    && RequiresVerification(goal)
    && ReplayRun(sys.log, Some(goal)).Some?
    && var r := ReplayRun(sys.log, Some(goal)).value;
       (&& sys.material.Some? && MaterialPersisted(sys.material.value, r)
        && IndependentlyAdmitted(sys, r)
        && ReplayRun(sys.log + [e], Some(goal)).Some?)
  }

  /** Everything append_event checks; a Completed transition of a goal that must be verified is refused. */
  predicate EventAdmits(sys: System, e: RunEvent, goal: Goal) {
    && sys.log != []
    && ReplayRun(sys.log + [e], Some(goal)).Some?
    && (CompletesRun(e) ==>
          && !LoadManaged(sys.log, sys.database).Unreadable?
          && !FindAuthority(sys.policy, sys.log, goal).Mismatch?
          && (FindAuthority(sys.policy, sys.log, goal).Found? ==> !RequiresVerification(goal))
          && (LoadManaged(sys.log, sys.database).ManagedBy? ==>
                ReplayRun(sys.log, Some(goal)).Some?
                && IndependentlyAdmitted(sys, ReplayRun(sys.log, Some(goal)).value)))
  }

  datatype Reconciliation = AlreadyCommitted | AppendRequired | ReconcileRefused

  function FindById(log: seq<RunEvent>, id: EventId): (found: Option<RunEvent>)
    ensures found.Some? <==> Mentions(log, id)
    ensures found.Some? ==> found.value in log && found.value.id == id
  {
    if log == [] then None
    else if log[0].id == id then assert log[0].id == id; Some(log[0])
    else
      assert Mentions(log[1..], id) ==> Mentions(log, id) by { MentionsRest(log, id); }
      assert Mentions(log, id) ==> Mentions(log[1..], id) by { MentionsRest(log, id); }
      FindById(log[1..], id)
  }

  lemma MentionsRest(log: seq<RunEvent>, id: EventId)
    requires log != []
    ensures Mentions(log, id) <==> log[0].id == id || Mentions(log[1..], id)
  {
    if Mentions(log, id) {
      var i :| 0 <= i < |log| && log[i].id == id;
      if i > 0 { assert log[1..][i - 1].id == id; }
    }
    if Mentions(log[1..], id) {
      var i :| 0 <= i < |log[1..]| && log[1..][i].id == id;
      assert log[i + 1].id == id;
    }
  }

  /** What a reconciliation answers about an append whose outcome is unknown; it never writes. */
  function Reconcile(sys: System, e: RunEvent, goal: Goal): Reconciliation {
    if !CompletesRun(e) || sys.log == [] || LoadManaged(sys.log, sys.database).Unreadable?
       || !FindAuthority(sys.policy, sys.log, goal).Found? || !RequiresVerification(goal)
       || ReplayRun(sys.log, Some(goal)).None? then ReconcileRefused
    else
      var r := ReplayRun(sys.log, Some(goal)).value;
      var found := FindById(sys.log, e.id);
      if found.Some? then
        if found.value == e && IndependentlyAdmitted(sys, r) then AlreadyCommitted else ReconcileRefused
      else if ReplayRun(sys.log + [e], Some(goal)).None? || !IndependentlyAdmitted(sys, r) then ReconcileRefused
      else AppendRequired
  }

  // ---------------------------------------------------------------- ambiguous appends

  /** Attempts at one completion append, any of which may fail before or after its durable write. */
  datatype Attempt =
    | AppendAttempt(goal: Goal, wrote: bool)
    | ReconcileAttempt(goal: Goal)

  function AfterAttempt(sys: System, e: RunEvent, a: Attempt): System {
    match a
    case AppendAttempt(goal, wrote) =>
      if wrote && VerifiedAdmits(sys, e, goal) then sys.(log := sys.log + [e]) else sys
    case ReconcileAttempt(_) => sys
  }

  function AfterAttempts(sys: System, e: RunEvent, attempts: seq<Attempt>): System
    decreases |attempts|
  {
    if attempts == [] then sys
    else AfterAttempt(AfterAttempts(sys, e, attempts[..|attempts| - 1]), e, attempts[|attempts| - 1])
  }

  /** However often a completion append is tried, interrupted and reconciled, the log is what it was or that
      plus one copy of the event, and it still replays. */
  lemma {:induction false} AmbiguousAppendsLeaveAtMostOneCopy(sys: System, e: RunEvent, attempts: seq<Attempt>, goal: Goal)
    requires sys.log != [] && ReplayRun(sys.log, Some(goal)).Some?
    requires forall i :: 0 <= i < |attempts| ==> attempts[i].goal == goal
    ensures var v := AfterAttempts(sys, e, attempts);
            && v == sys.(log := v.log)
            && (v.log == sys.log || v.log == sys.log + [e])
            && ReplayRun(v.log, Some(goal)).Some?
    decreases |attempts|
  {
    hide ReplayRun;
    if attempts != [] {
      var front := attempts[..|attempts| - 1];
      AmbiguousAppendsLeaveAtMostOneCopy(sys, e, front, goal);
      var v := AfterAttempts(sys, e, front);
      var last := attempts[|attempts| - 1];
      if v.log == sys.log + [e] {
        MentionsAppend(sys.log, e, e.id);
        NoSecondCopy(v.log, e, Some(goal));
      }
    }
  }

  /** AlreadyCommitted means the exact event is there; AppendRequired (the source calls it RetryRequired) means its id is not, and appending it
      would replay to a completed run. */
  lemma ReconciliationIsExact(sys: System, e: RunEvent, goal: Goal)
    ensures Reconcile(sys, e, goal).AlreadyCommitted? ==> e in sys.log && ReplayRun(sys.log, Some(goal)).Some?
    ensures Reconcile(sys, e, goal).AppendRequired? ==>
              && !Mentions(sys.log, e.id)
              && ReplayRun(sys.log + [e], Some(goal)).Some?
              && ReplayRun(sys.log + [e], Some(goal)).value.status.CompletedRun?
    ensures Reconcile(sys, e, goal).AppendRequired? && sys.material.Some?
            && MaterialPersisted(sys.material.value, ReplayRun(sys.log, Some(goal)).value)
            ==> VerifiedAdmits(sys, e, goal)
  {
    if Reconcile(sys, e, goal).AppendRequired? {
      ReplayIsPrefixClosed(sys.log, e, Some(goal));
      hide ReplayRun, IndependentlyAdmitted, CompletionAllowed;
    }
  }

  /** A retry after an interrupted append that did write is refused; one that did not write is accepted again. */
  lemma RetryIsAcceptedIffNothingWasWritten(sys: System, e: RunEvent, goal: Goal, wrote: bool)
    requires VerifiedAdmits(sys, e, goal)
    ensures VerifiedAdmits(AfterAttempt(sys, e, AppendAttempt(goal, wrote)), e, goal) <==> !wrote
  {
    hide ReplayRun;
    if wrote {
      MentionsAppend(sys.log, e, e.id);
      NoSecondCopy(sys.log + [e], e, Some(goal));
    }
  }

  // ---------------------------------------------------------------- creating a run

  datatype Stamp = Stamp(id: EventId, at: Time)

  /** Stamps in order: distinct ids, times that never go back. */
  predicate ValidStamps(stamps: seq<Stamp>) {
    && (forall i, j :: 0 <= i < j < |stamps| ==> stamps[i].id != stamps[j].id)
    && (forall i :: 0 <= i < |stamps| - 1 ==> stamps[i].at <= stamps[i + 1].at)
  }

  function StampedEvent(stamps: seq<Stamp>, i: int, payload: Payload): RunEvent
    requires 0 <= i < |stamps|
  {
    RunEvent(stamps[i].id, i, if i == 0 then None else Some(stamps[i - 1].id), stamps[i].at, Coordinator, payload)
  }

  /** The four bootstrap events of a planned run; `plan` is the schedule of its tasks in waves. */
  function PlannedEvents(goal: Goal, tasks: seq<Id>, plan: seq<seq<Id>>, stamps: seq<Stamp>): seq<RunEvent>
    requires |stamps| == 4
  {
    [StampedEvent(stamps, 0, RunCreated(goal.id, tasks)),
     StampedEvent(stamps, 1, StatusMoved(DraftRun, AcceptedRun)),
     StampedEvent(stamps, 2, PlanRecorded(plan, [])),
     StampedEvent(stamps, 3, StatusMoved(AcceptedRun, PlannedRun))]
  }

  /** Valid stamps and distinct tasks always build a stream that replays to a planned run; a crash part way
      through writing it leaves a stream that still replays. */
  lemma PlannedRunReplays(goal: Goal, tasks: seq<Id>, plan: seq<seq<Id>>, stamps: seq<Stamp>, n: int)
    requires |stamps| == 4 && ValidStamps(stamps) && NoRepeats(tasks) && 1 <= n <= 4
    requires PlanFits(plan, Created(tasks).tasks)
    ensures var events := PlannedEvents(goal, tasks, plan, stamps);
            && ReplayRun(events[..n], Some(goal)).Some?
            && ReplayRun(events, Some(goal)) == Some(Created(tasks).(status := PlannedRun, planned := true))
            && forall i :: 0 <= i < 3 ==> events[i].at <= events[i + 1].at
  {
    var events := PlannedEvents(goal, tasks, plan, stamps);
    forall i | 0 <= i < 4 ensures LinkedAt(events, i) {
      if i > 0 { assert events[..i][i - 1] == events[i - 1]; }
    }
    assert ValidEventChain(events);
    FoldOfPlanned(goal, tasks, events);
    assert events[..4] == events;
    hide ReplayFold, ReplayStep, Linked;
    if n < 4 { PrefixReplays(events, n, Some(goal)); }
  }

  lemma FoldOfPlanned(goal: Goal, tasks: seq<Id>, events: seq<RunEvent>)
    requires |events| == 4
    requires events[0].payload.RunCreated? && events[1].payload == StatusMoved(DraftRun, AcceptedRun)
    requires events[2].payload.PlanRecorded? && PlanFits(events[2].payload.waves, Created(tasks).tasks)
    requires events[3].payload == StatusMoved(AcceptedRun, PlannedRun)
    ensures ReplayFold(Some(goal), tasks, events) == Some(Created(tasks).(status := PlannedRun, planned := true))
  {
    hide PlanFits;
    assert events[..3][..2] == events[..2] && events[..2][..1] == events[..1] && events[..1][..0] == [];
    assert ReplayFold(Some(goal), tasks, events[..1]) == Some(Created(tasks));
    assert ReplayFold(Some(goal), tasks, events[..2]) == Some(Created(tasks).(status := AcceptedRun));
    assert ReplayFold(Some(goal), tasks, events[..3]) == Some(Created(tasks).(status := AcceptedRun, planned := true));
  }

  lemma {:induction false} PrefixReplays(events: seq<RunEvent>, n: int, goal: Option<Goal>)
    requires ReplayRun(events, goal).Some? && 1 <= n <= |events|
    ensures ReplayRun(events[..n], goal).Some?
    decreases |events| - n
  {
    if n < |events| {
      PrefixReplays(events, n + 1, goal);
      assert events[..n + 1] == events[..n] + [events[n]];
      ReplayIsPrefixClosed(events[..n], events[n], goal);
    } else {
      assert events[..n] == events;
    }
  }

  // ---------------------------------------------------------------- every operation sequence

  /** What can happen to a run: its creation (perhaps cut short), the two appends, a note of one of the
      controllers (never a status move), and any change of the database, the evidence or the verified sources. */
  datatype Op =
    | Create(goal: Goal, tasks: seq<Id>, plan: seq<seq<Id>>, stamps: seq<Stamp>, written: int)
    | Append(e: RunEvent, goal: Goal, wrote: bool)
    | AppendVerified(e: RunEvent, goal: Goal, wrote: bool)
    | ControllerAppend(e: RunEvent)
    | Surroundings(database: Database, evidence: Option<Id>, material: Option<Material>)

  function Appended(sys: System, e: RunEvent): System { sys.(log := sys.log + [e]) }

  function Step(sys: System, op: Op): System {
    match op
    case Create(goal, tasks, plan, stamps, written) =>
      if sys.log == [] && |stamps| == 4 && ValidStamps(stamps) && NoRepeats(tasks)
         && PlanFits(plan, Created(tasks).tasks) && 0 <= written <= 4 then
        sys.(log := PlannedEvents(goal, tasks, plan, stamps)[..written])
      else sys
    case Append(e, goal, wrote) => if wrote && EventAdmits(sys, e, goal) then Appended(sys, e) else sys
    case AppendVerified(e, goal, wrote) => if wrote && VerifiedAdmits(sys, e, goal) then Appended(sys, e) else sys
    case ControllerAppend(e) => if !e.payload.StatusMoved? then Appended(sys, e) else sys
    case Surroundings(database, evidence, material) =>
      sys.(database := database, evidence := evidence, material := material)
  }

  function Steps(sys: System, ops: seq<Op>): System
    decreases |ops|
  {
    if ops == [] then sys else Step(Steps(sys, ops[..|ops| - 1]), ops[|ops| - 1])
  }

  /** The event at position `i` was appended by the k-th operation, through one of the two gates. */
  predicate AdmittedBy(sys: System, ops: seq<Op>, i: int, k: int) {
    && 0 <= k < |ops| && 0 <= i < |Steps(sys, ops).log|
    && var before := Steps(sys, ops[..k]);
       (&& |before.log| == i && before.policy == sys.policy
        && before.log <= Steps(sys, ops).log
        && (|| (ops[k].AppendVerified? && ops[k].e == Steps(sys, ops).log[i] && VerifiedAdmits(before, ops[k].e, ops[k].goal))
            || (ops[k].Append? && ops[k].e == Steps(sys, ops).log[i] && EventAdmits(before, ops[k].e, ops[k].goal))))
  }

  lemma StepOnlyAppends(sys: System, op: Op)
    ensures sys.log <= Step(sys, op).log && Step(sys, op).policy == sys.policy
    ensures forall i ::
              |sys.log| <= i < |Step(sys, op).log| && CompletesRun(Step(sys, op).log[i]) ==>
              && i == |sys.log|
              && (|| (op.AppendVerified? && op.e == Step(sys, op).log[i] && VerifiedAdmits(sys, op.e, op.goal))
                  || (op.Append? && op.e == Step(sys, op).log[i] && EventAdmits(sys, op.e, op.goal)))
  {
    hide VerifiedAdmits, EventAdmits, ValidStamps, PlanFits;
  }

  lemma {:induction false} StepsOnlyAppend(sys: System, ops: seq<Op>)
    ensures sys.log <= Steps(sys, ops).log && Steps(sys, ops).policy == sys.policy
    decreases |ops|
  {
    hide Step;
    if ops != [] {
      StepsOnlyAppend(sys, ops[..|ops| - 1]);
      StepOnlyAppends(Steps(sys, ops[..|ops| - 1]), ops[|ops| - 1]);
    }
  }

  /** Over every sequence of operations, each Completed transition in the log came through a gate. */
  lemma {:induction false} EveryCompletionWasAdmitted(sys: System, ops: seq<Op>, i: int)
    requires |sys.log| <= i < |Steps(sys, ops).log| && CompletesRun(Steps(sys, ops).log[i])
    ensures exists k :: AdmittedBy(sys, ops, i, k)
    decreases |ops|
  {
    hide Step, VerifiedAdmits, EventAdmits;
    if ops != [] {
      var front := ops[..|ops| - 1];
      var before := Steps(sys, front);
      StepOnlyAppends(before, ops[|ops| - 1]);
      StepsOnlyAppend(sys, front);
      if i < |before.log| {
        EveryCompletionWasAdmitted(sys, front, i);
        var k :| AdmittedBy(sys, front, i, k);
        assert front[..k] == ops[..k];
        assert AdmittedBy(sys, ops, i, k);
      } else {
        assert ops[..|ops| - 1] == front;
        assert AdmittedBy(sys, ops, i, |ops| - 1);
      }
    }
  }

  /** The run's goal, as its creation event names it, is enforced and must be verified. */
  predicate MustBeVerified(policy: Policy, log: seq<RunEvent>) {
    && policy.Enforced? && log != [] && log[0].payload.RunCreated?
    && (log[0].payload.goal in policy.goals ==> RequiresVerification(policy.goals[log[0].payload.goal].goal))
  }

  /** The enforced gate: a run whose goal must be verified completes only through the verified append, on
      freshly recomputed material that is exactly what the stream recorded, in a stream that replays through
      the completion gate. */
  lemma EnforcedGoalsCompleteOnlyVerified(sys: System, ops: seq<Op>, i: int, k: int)
    requires AdmittedBy(sys, ops, i, k) && CompletesRun(Steps(sys, ops).log[i])
    requires MustBeVerified(sys.policy, Steps(sys, ops[..k]).log)
    ensures ops[k].AppendVerified?
    ensures var before := Steps(sys, ops[..k]);
            && before.material.Some? && ReplayRun(before.log, Some(ops[k].goal)).Some?
            && MaterialPersisted(before.material.value, ReplayRun(before.log, Some(ops[k].goal)).value)
            && before.policy.goals[before.log[0].payload.goal].goal == ops[k].goal
            && CompletionAllowed(Some(ops[k].goal), ReplayRun(before.log, Some(ops[k].goal)).value)
  {
    hide Steps, ReplayRun, CompletionAllowed, LoadManaged, IndependentlyAdmitted;
    var before := Steps(sys, ops[..k]);
    if ops[k].AppendVerified? { CompletionPassesTheGate(before.log, ops[k].e, Some(ops[k].goal)); }
  }

  /** The Issue 6 gate: a run that the Engineer-to-Verifier controller manages (its log shows a phase event,
      or the database has its state) completes only with its state loaded, its review resolved as a pass on
      that very state, and the stream's decisions exactly that passing pair; a missing database refuses. */
  lemma ManagedRunsCompleteOnlyReviewed(sys: System, ops: seq<Op>, i: int, k: int)
    requires AdmittedBy(sys, ops, i, k) && CompletesRun(Steps(sys, ops).log[i])
    requires var before := Steps(sys, ops[..k]);
             PhaseEvents(before.log) != [] || (before.database.Loaded? && before.database.issue6.Some?)
    ensures var before := Steps(sys, ops[..k]);
            && before.database.Loaded? && before.database.issue6.Some? && before.database.review.Some?
            && var issue6, review := before.database.issue6.value, before.database.review.value;
               (&& review.phase.ResolvedPass? && review.packet.issue6 == issue6.digest
                && ReviewAuditKernel.BothCompleted(review) && ReviewAuditKernel.Verdicts(review, Pass, Pass)
                && before.evidence == Some(review.packet.evidence)
                && ReplayRun(before.log, Some(ops[k].goal)).Some?
                && ReplayRun(before.log, Some(ops[k].goal)).value.reviews == [review.review.outcome.decision]
                && ReplayRun(before.log, Some(ops[k].goal)).value.audits == [review.audit.value.outcome.decision])
  {
    hide Steps, ReplayRun, FindAuthority, MaterialPersisted, ReadableLog, PhaseEvents;
  }

  // ---------------------------------------------------------------- the runtime itself

  /** An append is done, refused before anything was written, or left with an unknown outcome. */
  datatype AppendAnswer = Done | Refused | Unknown

  /** What create_run demands of the caller. */
  predicate Plannable(tasks: seq<Id>, plan: seq<seq<Id>>, stamps: seq<Stamp>)
    requires |stamps| == 4
  {
    ValidStamps(stamps) && NoRepeats(tasks) && PlanFits(plan, Created(tasks).tasks)
  }

  class Runtime {
    const policy: Policy
    var log: seq<RunEvent>
    var database: Database
    var evidence: Option<Id>
    var material: Option<Material>

    constructor (policy: Policy)
      ensures this.policy == policy && log == [] && database == NoDatabase && evidence.None? && material.None?
    {
      this.policy := policy;
      log, database, evidence, material := [], NoDatabase, None, None;
    }

    function Now(): System
      reads this
    {
      System(policy, log, database, evidence, material)
    }

    /** Writes the four bootstrap events one after the other into an empty log. A crash cuts it short after
        `reached` of them; four or more is no crash. */
    method CreateRun(goal: Goal, tasks: seq<Id>, plan: seq<seq<Id>>, stamps: seq<Stamp>, reached: nat)
        returns (ok: bool)
      requires |stamps| == 4
      modifies this`log
      ensures ok <==> old(log) == [] && Plannable(tasks, plan, stamps) && reached >= 4
      ensures log == if old(log) == [] && Plannable(tasks, plan, stamps)
                     then PlannedEvents(goal, tasks, plan, stamps)[..if reached < 4 then reached else 4] else old(log)
      ensures old(log) == [] && log != [] ==> ReplayRun(log, Some(goal)).Some?
      ensures ok ==> ReplayRun(log, Some(goal)) == Some(Created(tasks).(status := PlannedRun, planned := true))
    {
      hide ReplayRun, ValidStamps, NoRepeats, PlanFits;
      if !Plannable(tasks, plan, stamps) || log != [] { return false; }
      var events := PlannedEvents(goal, tasks, plan, stamps);
      var i := 0;
      while i < |events| && i < reached
        invariant 0 <= i <= |events| && i <= reached && log == events[..i]
      {
        assert events[..i + 1] == events[..i] + [events[i]];
        log := log + [events[i]];
        i := i + 1;
      }
      if i > 0 { PlannedRunReplays(goal, tasks, plan, stamps, i); }
      assert events[..4] == events;
      ok := i == |events|;
    }

    /** Appends one event after replaying the stream with it; a Completed transition passes the gates first. */
    method AppendEvent(e: RunEvent, goal: Goal) returns (ok: bool)
      modifies this`log
      ensures ok <==> EventAdmits(old(Now()), e, goal)
      ensures log == if ok then old(log) + [e] else old(log)
      ensures ok ==> ReplayRun(log, Some(goal)).Some?
    {
      hide ReplayRun, LoadManaged, IndependentlyAdmitted, FindAuthority;
      var prospective := log;
      if prospective == [] { return false; }
      if CompletesRun(e) {
        var managed := LoadManaged(log, database);
        if managed.Unreadable? { return false; }
        var authority := FindAuthority(policy, prospective, goal);
        if authority.Mismatch? { return false; }
        if authority.Found? && RequiresVerification(goal) { return false; }
        if managed.ManagedBy? {
          var current := ReplayRun(log, Some(goal));
          if current.None? || !IndependentlyAdmitted(Now(), current.value) { return false; }
          var extended := log + [e];
          if ReplayRun(extended, Some(goal)).None? { return false; }
          log := log + [e];
          return true;
        }
      }
      prospective := prospective + [e];
      if ReplayRun(prospective, Some(goal)).None? { return false; }
      log := log + [e];
      ok := true;
    }

    /** Appends a Completed transition of a goal that must be verified, under the evidence lease. It may fail
        before or after the durable write without saying which. */
    method AppendVerifiedCompletion(e: RunEvent, goal: Goal) returns (answer: AppendAnswer)
      modifies this`log
      ensures answer.Refused? <==> !VerifiedAdmits(old(Now()), e, goal)
      ensures answer.Done? ==> log == old(log) + [e] && ReplayRun(log, Some(goal)).Some?
      ensures answer.Refused? ==> log == old(log)
      ensures answer.Unknown? ==> log == old(log) || log == old(log) + [e]
    {
      hide ReplayRun, LoadManaged, IndependentlyAdmitted, FindAuthority, MaterialPersisted;
      if !CompletesRun(e) || log == [] { return Refused; }
      if LoadManaged(log, database).Unreadable? { return Refused; }
      if !FindAuthority(policy, log, goal).Found? || !RequiresVerification(goal) { return Refused; }
      var current := ReplayRun(log, Some(goal));
      if current.None? || material.None? || !MaterialPersisted(material.value, current.value) { return Refused; }
      if !IndependentlyAdmitted(Now(), current.value) { return Refused; }
      if ReplayRun(log + [e], Some(goal)).None? { return Refused; }
      var failsBefore: bool, failsAfter: bool := *, *;
      if failsBefore { return Unknown; }
      log := log + [e];
      answer := if failsAfter then Unknown else Done;
    }

    /** Answers for an append whose outcome is unknown; it only reads. */
    method ReconcileVerifiedCompletionAppend(e: RunEvent, goal: Goal) returns (answer: Reconciliation)
      ensures answer == Reconcile(Now(), e, goal)
      ensures answer.AlreadyCommitted? ==> e in log
      ensures answer.AppendRequired? ==> !Mentions(log, e.id) && ReplayRun(log + [e], Some(goal)).Some?
    {
      ReconciliationIsExact(Now(), e, goal);
      hide ReplayRun, LoadManaged, IndependentlyAdmitted, FindAuthority;
      if !CompletesRun(e) || log == [] || LoadManaged(log, database).Unreadable? { return ReconcileRefused; }
      if !FindAuthority(policy, log, goal).Found? || !RequiresVerification(goal) { return ReconcileRefused; }
      var current := ReplayRun(log, Some(goal));
      if current.None? { return ReconcileRefused; }
      var committed := FindById(log, e.id);
      if committed.Some? {
        return if committed.value == e && IndependentlyAdmitted(Now(), current.value) then AlreadyCommitted
               else ReconcileRefused;
      }
      var prospective := log + [e];
      if ReplayRun(prospective, Some(goal)).None? || !IndependentlyAdmitted(Now(), current.value) {
        return ReconcileRefused;
      }
      answer := AppendRequired;
    }
  }
}
