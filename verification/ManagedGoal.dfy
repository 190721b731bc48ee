/** A managed goal from end to end: the Engineer-to-Verifier controller, the review controller, the projection of
    its decisions and the goal runtime work on one log and one database. What a Completed event says about all
    of them. */
module ManagedGoal {
  import opened Common
  import opened RuntimeTypes
  import opened EngineerVerifierKernel
  import opened EngineerVerifierOutbox
  import opened EngineerVerifierTerminal
  import opened ReviewProjection
  import opened Replay
  import EV = EngineerVerifierRuns
  import EVC = EngineerVerifierCalls
  import RV = ReviewAuditRuns
  import RK = ReviewAuditKernel
  import GR = GoalRuntime

  /** Everything durable, and what the evidence bank and a fresh verification would say now. The log is that of
      the Engineer-to-Verifier world; the database may be unreadable. */
  datatype Joint = Joint(
    ev: EV.World, rv: RV.World, policy: GR.Policy, evidence: Option<Id>, material: Option<GR.Material>, readable: bool)

  datatype Move =
    | Engineering(a: EV.Action)
    | Reviewing(b: RV.Action)
    | Projecting
    | Append(e: RunEvent, goal: Goal, wrote: bool)
    | AppendVerified(e: RunEvent, goal: Goal, wrote: bool)
    | Surroundings(readable: bool, evidence: Option<Id>, material: Option<GR.Material>)

  function SystemOf(j: Joint): GR.System {
    GR.System(j.policy, j.ev.log, if j.readable then GR.Loaded(j.ev.state, j.rv.state) else GR.NoDatabase,
      j.evidence, j.material)
  }

  function PairOf(s: RK.ReviewState): Pair
    requires RK.BothCompleted(s)
  {
    Pair(s.review.outcome.decision, s.audit.value.outcome.decision, s.review.outcome.result, s.audit.value.outcome.result)
  }

  predicate Passed(rv: RV.World) {
    rv.state.Some? && rv.state.value.phase.ResolvedPass? && RK.BothCompleted(rv.state.value)
  }

  function Logged(j: Joint, e: RunEvent): Joint { j.(ev := EV.Apply(j.ev, EV.AppendOther(e))) }

  /** One append of the projection, if one is due. */
  function Projected(j: Joint): Joint {
    if !Passed(j.rv) || j.ev.state.None? || !Ready(j.ev.log, j.ev.state.value) then j
    else
      var p := PairOf(j.rv.state.value);
      match ShapeOf(j.ev.log, j.ev.state.value.projected.value.sequence, p)
      case Some(Absent) => Logged(j, ReviewEvent(j.ev.log, p))
      case Some(ReviewOnly) => Logged(j, AuditEvent(j.ev.log, p))
      case _ => j
  }

  /** The ids derived from phases and results are left to the controllers. */
  predicate Outside(e: RunEvent) { e.id.Named? && !e.payload.PhaseNote? }

  /** What a review is begun on: a verified run that changed exactly one file. */
  predicate Candidate(s: Option<EvState>) {
    && s.Some? && s.value.verifier.Some? && s.value.verifier.value.Admitted?
    && s.value.bridge.Some? && |s.value.bridge.value.diff.changed| == 1
  }

  function Step(j: Joint, m: Move): Joint {
    match m
    case Engineering(a) => if a.AppendOther? then j else j.(ev := EV.Apply(j.ev, a))
    case Reviewing(b) => if b.Install? && !Candidate(j.ev.state) then j else j.(rv := RV.Apply(j.rv, b))
    case Projecting => Projected(j)
    case Append(e, goal, wrote) =>
      if wrote && Outside(e) && GR.EventAdmits(SystemOf(j), e, goal) then Logged(j, e) else j
    case AppendVerified(e, goal, wrote) =>
      if wrote && Outside(e) && GR.VerifiedAdmits(SystemOf(j), e, goal) then Logged(j, e) else j
    case Surroundings(readable, evidence, material) =>
      j.(readable := readable, evidence := evidence, material := material)
  }

  function Steps(j: Joint, moves: seq<Move>): Joint
    decreases |moves|
  {
    if moves == [] then j else Step(Steps(j, moves[..|moves| - 1]), moves[|moves| - 1])
  }

  function Start(base: seq<RunEvent>, policy: GR.Policy): Joint {
    Joint(EV.Start(base), RV.START, policy, None, None, false)
  }

  /** No decision, and no id of the pair. */
  predicate Plain(e: RunEvent) {
    (e.id.Named? || e.id.PhaseEventId?) && !e.payload.ReviewDecided? && !e.payload.AuditDecided?
  }

  predicate PlainFrom(log: seq<RunEvent>, i: int)
    requires 0 <= i
  {
    forall k :: i <= k < |log| ==> Plain(log[k])
  }

  /** A log the controllers find: linked, readable, without phase events or decisions. */
  predicate Created(base: seq<RunEvent>) {
    ReadableRun(base) && PhaseEvents(base) == [] && UniqueIds(base) && PlainFrom(base, 0)
  }

  // ---------------------------------------------------------------- each world is a run of its own

  ghost predicate Reached(base: seq<RunEvent>, j: Joint) {
    && (exists a :: j.ev == EV.Run(EV.Start(base), a))
    && (exists b :: j.rv == RV.Run(RV.START, b))
  }

  lemma EvRuns(base: seq<RunEvent>, w: EV.World, a: EV.Action)
    requires exists actions :: w == EV.Run(EV.Start(base), actions)
    ensures exists actions :: EV.Apply(w, a) == EV.Run(EV.Start(base), actions)
  {
    hide EV.Apply;
    var actions :| w == EV.Run(EV.Start(base), actions);
    assert (actions + [a])[..|actions|] == actions;
    assert EV.Apply(w, a) == EV.Run(EV.Start(base), actions + [a]);
  }

  lemma RvRuns(w: RV.World, b: RV.Action)
    requires exists actions :: w == RV.Run(RV.START, actions)
    ensures exists actions :: RV.Apply(w, b) == RV.Run(RV.START, actions)
  {
    hide RV.Apply;
    var actions :| w == RV.Run(RV.START, actions);
    assert (actions + [b])[..|actions|] == actions;
    assert RV.Apply(w, b) == RV.Run(RV.START, actions + [b]);
  }

  /** A step leaves each world as it was, or one action further. */
  lemma StepIsAction(j: Joint, m: Move)
    ensures var n := Step(j, m);
            && n.policy == j.policy
            && (n.ev == j.ev || exists a :: n.ev == EV.Apply(j.ev, a))
            && (n.rv == j.rv || exists b :: n.rv == RV.Apply(j.rv, b))
  {
    hide EV.Apply, RV.Apply, GR.EventAdmits, GR.VerifiedAdmits, TerminalChain, ShapeOf;
  }

  lemma StepKeepsReached(base: seq<RunEvent>, j: Joint, m: Move)
    requires Reached(base, j)
    ensures Reached(base, Step(j, m))
  {
    StepIsAction(j, m);
    hide Step, EV.Run, RV.Run, EV.Apply, RV.Apply;
    var n := Step(j, m);
    if n.ev != j.ev {
      var a :| n.ev == EV.Apply(j.ev, a);
      EvRuns(base, j.ev, a);
    }
    if n.rv != j.rv {
      var b :| n.rv == RV.Apply(j.rv, b);
      RvRuns(j.rv, b);
    }
  }

  lemma {:induction false} EveryRunIsReached(base: seq<RunEvent>, policy: GR.Policy, moves: seq<Move>)
    ensures Reached(base, Steps(Start(base, policy), moves))
    decreases |moves|
  {
    hide Step, Reached;
    if moves == [] {
      StartIsReached(base, policy);
    } else {
      EveryRunIsReached(base, policy, moves[..|moves| - 1]);
      StepKeepsReached(base, Steps(Start(base, policy), moves[..|moves| - 1]), moves[|moves| - 1]);
    }
  }

  lemma StartIsReached(base: seq<RunEvent>, policy: GR.Policy)
    ensures Reached(base, Start(base, policy))
  {
    assert EV.Run(EV.Start(base), []) == EV.Start(base);
    assert RV.Run(RV.START, []) == RV.START;
  }

  /** What the two worlds keep on their own. */
  lemma ReachedFacts(base: seq<RunEvent>, j: Joint)
    requires Created(base) && Reached(base, j)
    ensures OutboxInv(j.ev)
    ensures Passed(j.rv) ==>
              && RK.BothSound(j.rv.state.value) && RK.Verdicts(j.rv.state.value, Pass, Pass)
              && j.rv.reviewerCalls == 1 && j.rv.auditorCalls == 1
    ensures RV.Inv(j.rv)
    ensures j.ev.state.Some? && TerminalChain(j.ev.log, j.ev.state.value).Some? ==> j.ev.state.value.attempt == 1
  {
    hide EV.Run, RV.Run, OutboxInv, RV.Inv, TerminalChain, ReadableRun, PhaseEvents, UniqueIds, GoodHead;
    var a :| j.ev == EV.Run(EV.Start(base), a);
    var b :| j.rv == RV.Run(RV.START, b);
    EveryRunKeepsOutbox(base, a);
    RV.EveryRunKeepsInv(b);
    if Passed(j.rv) { RV.PassesAreEarned(b); }
    if j.ev.state.Some? && TerminalChain(j.ev.log, j.ev.state.value).Some? {
      AcceptedIsReviewing(j.ev.log, j.ev.state.value);
      FinishedRunIsAcceptedIff(base, a);
    }
  }

  lemma AcceptedIsReviewing(log: seq<RunEvent>, s: EvState)
    requires TerminalChain(log, s).Some?
    ensures s.phase.Reviewing? && s.pending.None? && s.projected.Some? && 0 <= s.projected.value.sequence < |log|
  {
    hide ValidState, UniqueIds, ChainRows, ValidRows;
  }

  // ---------------------------------------------------------------- the log of the joint run

  /** A new event of no controller phase, linked to the log's end. */
  predicate Continues(log: seq<RunEvent>, e: RunEvent) {
    && !e.payload.PhaseNote? && !e.id.PhaseEventId?
    && e.sequence == |log| && e.previous == LastId(log) && !Mentions(log, e.id)
  }

  lemma LoggedAppends(j: Joint, e: RunEvent)
    ensures var n := Logged(j, e);
            && n == j.(ev := n.ev) && n.ev == j.ev.(log := n.ev.log)
            && (n.ev.log == j.ev.log || n.ev.log == j.ev.log + [e])
            && (Continues(j.ev.log, e) ==> n.ev.log == j.ev.log + [e])
  {
  }

  /** A controller's own action adds at most a phase event. */
  lemma EngineeringAppends(w: EV.World, a: EV.Action)
    requires OutboxInv(w) && !a.AppendOther?
    ensures var v := EV.Apply(w, a);
            v.log == w.log || (|v.log| == |w.log| + 1 && v.log == w.log + [v.log[|w.log|]] && Plain(v.log[|w.log|])
                               && v.log[|w.log|].payload.PhaseNote?)
  {
    hide OutboxInv, EV.CommitApplies, EV.InstallApplies, EV.BrokerAllows, EV.StaleOwnerActs, EV.CanOpen;
    hide EV.InspectRoot;
    ActionKeepsOutbox(w, a);
    var v := EV.Apply(w, a);
    if v.log != w.log {
      assert a.Confirm?;
      PhaseEventIsPlain(v, |w.log|) by { ConfirmedIsPhase(w, a.d); }
    }
  }

  lemma ConfirmedIsPhase(w: EV.World, d: EV.DriverId)
    ensures var v := EV.ConfirmStep(w, d);
            v.log == w.log
            || (|v.log| == |w.log| + 1 && v.log == w.log + [v.log[|w.log|]] && v.log[|w.log|].payload.PhaseNote?)
  {
    hide EV.ReadableLog;
  }

  lemma PhaseEventIsPlain(v: EV.World, i: int)
    requires OutboxInv(v) && 0 <= i < |v.log| && v.log[i].payload.PhaseNote?
    ensures Plain(v.log[i])
  {
    assert ReadableRun(v.log);
    hide OutboxInv;
  }

  /** The event a move would append. */
  predicate Offers(m: Move, e: RunEvent, goal: Goal, j: Joint) {
    || (m.AppendVerified? && m.e == e && m.goal == goal && GR.VerifiedAdmits(SystemOf(j), e, goal))
    || (m.Append? && m.e == e && m.goal == goal && GR.EventAdmits(SystemOf(j), e, goal))
  }

  lemma StepAppends(j: Joint, m: Move)
    requires OutboxInv(j.ev)
    ensures var n := Step(j, m);
            || n.ev.log == j.ev.log
            || (&& |n.ev.log| == |j.ev.log| + 1 && n.ev.log == j.ev.log + [n.ev.log[|j.ev.log|]]
                && (CompletesRun(n.ev.log[|j.ev.log|]) ==>
                      (m.Append? || m.AppendVerified?) && Offers(m, n.ev.log[|j.ev.log|], m.goal, j)))
  {
    hide OutboxInv, EV.Apply, RV.Apply, GR.EventAdmits, GR.VerifiedAdmits, TerminalChain, ShapeOf;
    match m
    case Engineering(a) => if !a.AppendOther? { EngineeringAppends(j.ev, a); }
    case Append(e, goal, wrote) => LoggedAppends(j, e);
    case AppendVerified(e, goal, wrote) => LoggedAppends(j, e);
    case Projecting =>
      if Passed(j.rv) {
        LoggedAppends(j, ReviewEvent(j.ev.log, PairOf(j.rv.state.value)));
        LoggedAppends(j, AuditEvent(j.ev.log, PairOf(j.rv.state.value)));
      }
      hide Logged;
    case _ =>
  }

  /** The event at position `i` was let in by the k-th move. */
  predicate AdmittedAt(start: Joint, moves: seq<Move>, i: int, k: int) {
    && 0 <= k < |moves| && 0 <= i < |Steps(start, moves).ev.log|
    && |Steps(start, moves[..k]).ev.log| == i
    && Steps(start, moves[..k]).ev.log <= Steps(start, moves).ev.log
    && (moves[k].Append? || moves[k].AppendVerified?)
    && Offers(moves[k], Steps(start, moves).ev.log[i], moves[k].goal, Steps(start, moves[..k]))
  }

  lemma {:induction false} EveryCompletionIsOffered(base: seq<RunEvent>, policy: GR.Policy, moves: seq<Move>, i: int)
    requires Created(base)
    requires var log := Steps(Start(base, policy), moves).ev.log; |base| <= i < |log| && CompletesRun(log[i])
    ensures exists k :: AdmittedAt(Start(base, policy), moves, i, k)
    decreases |moves|
  {
    hide Step, Offers, Created, Reached;
    if moves != [] {
      var start := Start(base, policy);
      var front := moves[..|moves| - 1];
      var before := Steps(start, front);
      EveryRunIsReached(base, policy, front);
      ReachedFacts(base, before);
      StepAppends(before, moves[|moves| - 1]);
      if i < |before.ev.log| {
        EveryCompletionIsOffered(base, policy, front, i);
        var k :| AdmittedAt(start, front, i, k);
        assert front[..k] == moves[..k];
        assert AdmittedAt(start, moves, i, k);
      } else {
        assert moves[..|moves| - 1] == front;
        assert AdmittedAt(start, moves, i, |moves| - 1);
      }
    }
  }

  // ---------------------------------------------------------------- what a completion has behind it

  /** Known to be managed: by its database record, or by a phase event in the log. */
  predicate Managed(j: Joint) { PhaseEvents(j.ev.log) != [] || (j.readable && j.ev.state.Some?) }

  /** Both controllers did their work: the Reviewer and the Auditor were each called once, on the very state the
      run reached, and answered a supported Pass; the stream's decisions are those two, and the evidence is
      still the one they saw. */
  predicate Earned(j: Joint, goal: Goal) {
    && j.readable && j.ev.state.Some? && Passed(j.rv)
    && var review := j.rv.state.value;
       (&& review.packet.issue6 == j.ev.state.value.digest && j.evidence == Some(review.packet.evidence)
        && RK.BothSound(review) && RK.Verdicts(review, Pass, Pass)
        && j.rv.reviewerCalls == 1 && j.rv.auditorCalls == 1
        && ReplayRun(j.ev.log, Some(goal)).Some?
        && ReplayRun(j.ev.log, Some(goal)).value.reviews == [review.review.outcome.decision]
        && ReplayRun(j.ev.log, Some(goal)).value.audits == [review.audit.value.outcome.decision])
  }

  lemma OfferedIsEarned(base: seq<RunEvent>, j: Joint, m: Move, e: RunEvent, goal: Goal)
    requires Created(base) && Reached(base, j) && Offers(m, e, goal, j) && CompletesRun(e) && Managed(j)
    ensures Earned(j, goal)
  {
    hide Created, Reached, OutboxInv, RV.Inv, ReplayRun, GR.FindAuthority, GR.MaterialPersisted, EV.ReadableLog, PhaseEvents;
    hide RK.SoundReview, RK.SoundAudit, TerminalChain;
    ReachedFacts(base, j);
  }

  // ---------------------------------------------------------------- decisions that came through the projection

  /** No decision in the log has a caller's id. */
  predicate NothingByHand(log: seq<RunEvent>) {
    forall i :: 0 <= i < |log| && (log[i].payload.ReviewDecided? || log[i].payload.AuditDecided?) ==> !log[i].id.Named?
  }

  /** The run ended in one attempt in Reviewing, its phase path is in the log, and right after its terminal
      event come the review event and perhaps the audit event; nothing else is a decision. */
  ghost predicate Begun(j: Joint) {
    && Passed(j.rv) && j.ev.state.Some?
    && var s, p, log := j.ev.state.value, PairOf(j.rv.state.value), j.ev.log;
       (&& s.phase.Reviewing? && s.pending.None? && s.attempt == 1 && s.projected.Some?
        && (exists start :: PhasePathAt(log, s, start))
        && PairFollows(log, s.projected.value.sequence, p))
  }

  predicate PairFollows(log: seq<RunEvent>, k: int, p: Pair) {
    && 0 <= k && |log| > k + 1 && PlainFrom(log[..k + 1], 0)
    && log[k + 1] == ReviewEvent(log[..k + 1], p)
    && (|| PlainFrom(log, k + 2)
        || (|log| > k + 2 && log[k + 2] == AuditEvent(log[..k + 2], p) && PlainFrom(log, k + 3)))
  }

  ghost predicate PairInv(j: Joint) { PlainFrom(j.ev.log, 0) || Begun(j) }

  lemma PlainAppends(log: seq<RunEvent>, e: RunEvent, k: int, p: Pair)
    requires Plain(e)
    ensures PlainFrom(log, 0) ==> PlainFrom(log + [e], 0)
    ensures PairFollows(log, k, p) ==> PairFollows(log + [e], k, p)
  {
    if PairFollows(log, k, p) {
      assert (log + [e])[..k + 1] == log[..k + 1];
      if |log| > k + 2 { assert (log + [e])[..k + 2] == log[..k + 2]; }
    }
  }

  lemma PathAppends(log: seq<RunEvent>, e: RunEvent, s: EvState, start: int)
    requires PhasePathAt(log, s, start) && Linked(log + [e])
    ensures PhasePathAt(log + [e], s, start)
  {
    assert (log + [e])[start..start + s.phaseRevision] == log[start..start + s.phaseRevision];
    hide Path, PhaseRows, AttemptsRiseAtRetries, Linked;
  }

  /** What a path and a pair need of the state. */
  predicate SameEnd(s: EvState, n: EvState) {
    && n.phase == s.phase && n.pending == s.pending && n.projected == s.projected
    && n.phaseRevision == s.phaseRevision && n.attempt == s.attempt
  }

  lemma SameEndSamePath(log: seq<RunEvent>, s: EvState, n: EvState, start: int)
    requires SameEnd(s, n) && PhasePathAt(log, s, start)
    ensures PhasePathAt(log, n, start)
  {
    hide Path, PhaseRows, AttemptsRiseAtRetries, Linked;
  }

  lemma FinishedWriteKeepsEnd(s: EvState, n: EvState)
    requires ValidSuccessor(s, n) && Terminal(s.phase) && s.pending.None?
    ensures SameEnd(s, n)
  {
  }

  lemma EngineeringKeepsEnd(w: EV.World, a: EV.Action)
    requires Finished(w)
    ensures EV.Apply(w, a).state.Some? && SameEnd(w.state.value, EV.Apply(w, a).state.value)
  {
    match a
    case Install(d, plan, cursor, now) => NoSecondInstall(w, d, plan, cursor, now); hide EV.InstallStep;
    case Commit(d, cmd) =>
      hide EV.CommitApplies, EV.CommitStep, ValidSuccessor;
      if EV.CommitApplies(w, d, cmd) { CommittedEnd(w, d, cmd); } else { RefusedEnd(w, d, cmd); }
    case _ => EVC.OtherStepsKeepState(w, a); hide EV.Apply;
  }

  lemma CommittedEnd(w: EV.World, d: EV.DriverId, cmd: EngineerVerifierCommands.Command)
    requires Finished(w) && EV.CommitApplies(w, d, cmd)
    ensures EV.CommitStep(w, d, cmd).state.Some? && SameEnd(w.state.value, EV.CommitStep(w, d, cmd).state.value)
  {
    hide ValidSuccessor, EV.Permitted, EngineerVerifierCommands.Enabled, EngineerVerifierCommands.Next;
    CommitIsAWrite(w, d, cmd);
    FinishedWriteKeepsEnd(w.state.value, EngineerVerifierCommands.Next(w.state.value, cmd));
  }

  lemma RefusedEnd(w: EV.World, d: EV.DriverId, cmd: EngineerVerifierCommands.Command)
    requires !EV.CommitApplies(w, d, cmd)
    ensures EV.CommitStep(w, d, cmd) == w
  {
    hide EV.CommitApplies;
  }

  lemma LinkedIn(w: EV.World)
    requires OutboxInv(w)
    ensures Linked(w.log)
  {
    hide Linked;
  }

  /** A longer log, with a plain event, and a state with the same end. */
  lemma BegunGoesOn(j: Joint, n: Joint)
    requires Begun(j) && OutboxInv(n.ev) && n.rv.state == j.rv.state && n.ev.state.Some?
    requires SameEnd(j.ev.state.value, n.ev.state.value)
    requires n.ev.log == j.ev.log
             || (|n.ev.log| == |j.ev.log| + 1 && n.ev.log == j.ev.log + [n.ev.log[|j.ev.log|]] && Plain(n.ev.log[|j.ev.log|]))
    ensures Begun(n)
  {
    LinkedIn(n.ev);
    hide OutboxInv, PairFollows, PhasePathAt, Linked, SameEnd;
    var s, t := j.ev.state.value, n.ev.state.value;
    assert t.phase == s.phase && t.pending == s.pending && t.projected == s.projected && t.attempt == s.attempt by {
      EndParts(s, t);
    }
    var start :| PhasePathAt(j.ev.log, s, start);
    SameEndSamePath(j.ev.log, s, t, start);
    if n.ev.log != j.ev.log {
      var e := n.ev.log[|j.ev.log|];
      PathAppends(j.ev.log, e, t, start);
      PlainAppends(j.ev.log, e, s.projected.value.sequence, PairOf(j.rv.state.value));
    }
  }

  lemma EndParts(s: EvState, t: EvState)
    requires SameEnd(s, t)
    ensures t.phase == s.phase && t.pending == s.pending && t.projected == s.projected && t.attempt == s.attempt
  {
  }

  lemma PlainGoesOn(j: Joint, n: Joint)
    requires PlainFrom(j.ev.log, 0)
    requires n.ev.log == j.ev.log
             || (|n.ev.log| == |j.ev.log| + 1 && n.ev.log == j.ev.log + [n.ev.log[|j.ev.log|]] && Plain(n.ev.log[|j.ev.log|]))
    ensures PlainFrom(n.ev.log, 0)
  {
  }

  lemma PassedStays(rv: RV.World, a: RV.Action)
    requires RV.Inv(rv) && Passed(rv)
    ensures RV.Apply(rv, a).state == rv.state
  {
    RV.ActionMovesForward(rv, a);
    hide RV.Inv, RV.Apply;
  }

  /** Every move but the projection keeps the pair's place. */
  lemma OtherMovesKeepPair(base: seq<RunEvent>, j: Joint, m: Move)
    requires Created(base) && Reached(base, j) && PairInv(j) && !m.Projecting?
    requires NothingByHand(Step(j, m).ev.log)
    ensures PairInv(Step(j, m))
  {
    hide Created, Reached, OutboxInv, RV.Inv, EV.Apply, RV.Apply, GR.EventAdmits, GR.VerifiedAdmits, TerminalChain, Begun;
    hide RK.BothSound;
    var n := Step(j, m);
    StepKeepsReached(base, j, m);
    ReachedFacts(base, j);
    ReachedFacts(base, n);
    match m
    case Engineering(a) =>
      if !a.AppendOther? {
        EngineeringAppends(j.ev, a);
        if PlainFrom(j.ev.log, 0) { PlainGoesOn(j, n); }
        else {
          assert Finished(j.ev) by { BegunIsFinished(j); }
          EngineeringKeepsEnd(j.ev, a);
          hide SameEnd;
          BegunGoesOn(j, n);
        }
      }
    case Reviewing(b) =>
      if !PlainFrom(j.ev.log, 0) {
        assert Passed(j.rv) && j.ev.state.Some? by { BegunIsFinished(j); }
        PassedStays(j.rv, b);
        BegunGoesOn(j, n);
      }
    case Append(e, goal, wrote) => AppendKeepsPair(j, n, e);
    case AppendVerified(e, goal, wrote) => AppendKeepsPair(j, n, e);
    case Surroundings(readable, evidence, material) =>
      if !PlainFrom(j.ev.log, 0) {
        assert Passed(j.rv) && j.ev.state.Some? by { BegunIsFinished(j); }
        BegunGoesOn(j, n);
      }
    case Projecting => assert false;
  }

  lemma AppendKeepsPair(j: Joint, n: Joint, e: RunEvent)
    requires PairInv(j) && OutboxInv(n.ev) && (n == j || (n == Logged(j, e) && Outside(e)))
    requires NothingByHand(n.ev.log)
    ensures PairInv(n)
  {
    LoggedAppends(j, e);
    hide OutboxInv, Begun, Logged;
    if n.ev.log != j.ev.log {
      assert n.ev.log[|j.ev.log|] == e;
    }
    if n != j {
      if PlainFrom(j.ev.log, 0) { PlainGoesOn(j, n); }
      else {
        assert j.ev.state.Some? by { BegunIsFinished(j); }
        BegunGoesOn(j, n);
      }
    }
  }

  lemma BegunIsFinished(j: Joint)
    requires Begun(j)
    ensures Passed(j.rv) && j.ev.state.Some? && Finished(j.ev)
  {
    hide PhasePathAt, PairFollows;
  }

  /** The projection starts the pair right after the terminal event, and completes it. */
  lemma ProjectionKeepsPair(base: seq<RunEvent>, j: Joint)
    requires Created(base) && Reached(base, j) && PairInv(j)
    ensures PairInv(Projected(j))
  {
    hide Created, Reached, OutboxInv, RV.Inv, TerminalChain, RK.BothSound, EV.Apply;
    var n := Projected(j);
    StepKeepsReached(base, j, Projecting);
    ReachedFacts(base, j);
    ReachedFacts(base, n) by { assert Step(j, Projecting) == n; }
    LinkedIn(n.ev);
    if n != j {
      if PlainFrom(j.ev.log, 0) { ProjectionBegins(j, n); } else { ProjectionCompletes(j, n); }
    }
  }

  lemma ProjectionBegins(j: Joint, n: Joint)
    requires n == Projected(j) && n != j && PlainFrom(j.ev.log, 0) && Linked(n.ev.log)
    requires j.ev.state.Some? && TerminalChain(j.ev.log, j.ev.state.value).Some? ==> j.ev.state.value.attempt == 1
    ensures Begun(n)
  {
    hide TerminalChain, PhasePathAt, Linked, EV.Apply;
    var s, p, log := j.ev.state.value, PairOf(j.rv.state.value), j.ev.log;
    var k := s.projected.value.sequence;
    var e := ReviewEvent(log, p);
    assert ShapeOf(log, k, p) == Some(Absent) by { if |log| > k + 1 { assert Plain(log[k + 1]); } }
    forall i | 0 <= i < |log| ensures log[i].id != e.id { assert Plain(log[i]); }
    assert !Mentions(log, e.id);
    LoggedAppends(j, e);
    AcceptedIsReviewing(log, s);
    AcceptedChainHoldsAPhasePath(log, s);
    var start :| PhasePathAt(log, s, start);
    PathAppends(log, e, s, start);
    assert (log + [e])[..k + 1] == log;
  }

  lemma ProjectionCompletes(j: Joint, n: Joint)
    requires n == Projected(j) && n != j && Begun(j) && Linked(n.ev.log)
    ensures Begun(n)
  {
    hide TerminalChain, PhasePathAt, Linked, EV.Apply;
    var s, p, log := j.ev.state.value, PairOf(j.rv.state.value), j.ev.log;
    var k := s.projected.value.sequence;
    var e := AuditEvent(log, p);
    assert |log| > k + 1 && log[k + 1] == ReviewEvent(log[..k + 1], p);
    assert ShapeOf(log, k, p) == Some(ReviewOnly);
    forall i | 0 <= i < |log| ensures log[i].id != e.id { if i <= k { assert Plain(log[..k + 1][i]); } }
    assert !Mentions(log, e.id);
    LoggedAppends(j, e);
    var start :| PhasePathAt(log, s, start);
    PathAppends(log, e, s, start);
    assert (log + [e])[..k + 1] == log[..k + 1] && (log + [e])[..k + 2] == log;
  }

  lemma {:induction false} EveryRunKeepsPair(base: seq<RunEvent>, policy: GR.Policy, moves: seq<Move>)
    requires Created(base) && NothingByHand(Steps(Start(base, policy), moves).ev.log)
    ensures PairInv(Steps(Start(base, policy), moves))
    decreases |moves|
  {
    hide Step, PairInv, Created, Reached;
    if moves == [] {
      StartIsPlain(base, policy);
    } else {
      var front := moves[..|moves| - 1];
      var m := moves[|moves| - 1];
      var before := Steps(Start(base, policy), front);
      EveryRunIsReached(base, policy, front);
      ReachedFacts(base, before);
      StepAppends(before, m);
      hide OutboxInv, Offers;
      EarlierNothingByHand(before.ev.log, Step(before, m).ev.log);
      EveryRunKeepsPair(base, policy, front);
      if m.Projecting? { ProjectionKeepsPair(base, before); ProjectingIsProjected(before); }
      else { OtherMovesKeepPair(base, before, m); }
    }
  }

  lemma EarlierNothingByHand(before: seq<RunEvent>, log: seq<RunEvent>)
    requires NothingByHand(log) && before <= log
    ensures NothingByHand(before)
  {
    forall i | 0 <= i < |before| ensures before[i] == log[i] {}
  }

  lemma StartIsPlain(base: seq<RunEvent>, policy: GR.Policy)
    requires Created(base)
    ensures PairInv(Start(base, policy))
  {
  }

  lemma ProjectingIsProjected(j: Joint)
    ensures Step(j, Projecting) == Projected(j)
  {
    hide Projected;
  }

  // ---------------------------------------------------------------- the whole story

  /** A replayed decision is in the log. */
  lemma {:induction false} ReplayedDecisionsAreLogged(events: seq<RunEvent>, goal: Option<Goal>, tasks: seq<Id>)
    requires ReplayFold(goal, tasks, events).Some?
    ensures ReplayFold(goal, tasks, events).value.audits != [] ==> exists i :: 0 <= i < |events| && events[i].payload.AuditDecided?
    decreases |events|
  {
    if events != [] {
      var front := events[..|events| - 1];
      ReplayedDecisionsAreLogged(front, goal, tasks);
      AuditsComeFromDecisions(goal, ReplayFold(goal, tasks, front).value, events[|events| - 1]);
      hide ReplayStep;
      if ReplayFold(goal, tasks, front).value.audits != [] {
        var i :| 0 <= i < |front| && front[i].payload.AuditDecided?;
        assert events[i].payload.AuditDecided?;
      }
    }
  }

  lemma AuditsComeFromDecisions(goal: Option<Goal>, r: Replayed, e: RunEvent)
    requires ReplayStep(goal, r, e).Some?
    ensures ReplayStep(goal, r, e).value.audits != r.audits ==> e.payload.AuditDecided?
  {
    hide CompletionAllowed, PlanFits;
  }

  /** The run ended in one attempt, its phase path from Planned to Reviewing is in the log, and the pair comes
      right after it, once. */
  ghost predicate PairIsLogged(j: Joint) {
    && Passed(j.rv) && j.ev.state.Some?
    && var s, p := j.ev.state.value, PairOf(j.rv.state.value);
       (&& s.phase.Reviewing? && s.attempt == 1 && s.projected.Some?
        && (exists start :: PhasePathAt(j.ev.log, s, start))
        && ShapeOf(j.ev.log, s.projected.value.sequence, p) == Some(Complete))
  }

  lemma EarnedPairIsLogged(j: Joint, goal: Goal)
    requires PairInv(j) && Earned(j, goal)
    ensures PairIsLogged(j)
  {
    hide RK.BothSound, PhasePathAt;
    var log := j.ev.log;
    assert exists i :: 0 <= i < |log| && log[i].payload.AuditDecided? by {
      ReplayedDecisionsAreLogged(log, Some(goal), log[0].payload.tasks);
      hide ReplayFold;
    }
    var i :| 0 <= i < |log| && log[i].payload.AuditDecided?;
    hide ReplayRun;
    assert !Plain(log[i]);
    assert Begun(j);
    var k := j.ev.state.value.projected.value.sequence;
    forall a | 0 <= a <= k ensures !log[a].payload.AuditDecided? { assert Plain(log[..k + 1][a]); }
    assert i > k + 1;
    assert !PlainFrom(log, k + 2);
  }

  /** A stream that replays holds one decision of each kind at most. */
  lemma {:induction false} DecisionsReplayOnce(events: seq<RunEvent>, goal: Option<Goal>, tasks: seq<Id>)
    requires ReplayFold(goal, tasks, events).Some?
    ensures ReplayFold(goal, tasks, events).value.reviews == [] ==> forall i :: 0 <= i < |events| ==> !events[i].payload.ReviewDecided?
    ensures ReplayFold(goal, tasks, events).value.audits == [] ==> forall i :: 0 <= i < |events| ==> !events[i].payload.AuditDecided?
    ensures forall i, k :: 0 <= i < |events| && 0 <= k < |events| && events[i].payload.ReviewDecided? && events[k].payload.ReviewDecided? ==> i == k
    ensures forall i, k :: 0 <= i < |events| && 0 <= k < |events| && events[i].payload.AuditDecided? && events[k].payload.AuditDecided? ==> i == k
    decreases |events|
  {
    if events != [] {
      var front := events[..|events| - 1];
      DecisionsReplayOnce(front, goal, tasks);
      DecisionsAreCounted(goal, ReplayFold(goal, tasks, front).value, events[|events| - 1]);
      hide ReplayStep;
      assert forall i :: 0 <= i < |front| ==> events[i] == front[i];
    }
  }

  lemma DecisionsAreCounted(goal: Option<Goal>, r: Replayed, e: RunEvent)
    requires ReplayStep(goal, r, e).Some?
    ensures var n := ReplayStep(goal, r, e).value;
            && (n.reviews == [] ==> r.reviews == [] && !e.payload.ReviewDecided?)
            && (n.audits == [] ==> r.audits == [] && !e.payload.AuditDecided?)
            && (e.payload.ReviewDecided? ==> r.reviews == []) && (e.payload.AuditDecided? ==> r.audits == [])
  {
    hide CompletionAllowed, PlanFits;
  }

  lemma LoggedPairIsNotByHand(j: Joint, goal: Goal)
    requires PairIsLogged(j) && ReplayRun(j.ev.log, Some(goal)).Some?
    ensures NothingByHand(j.ev.log)
  {
    hide ReplayFold, PhasePathAt, RK.BothSound;
    var log := j.ev.log;
    DecisionsReplayOnce(log, Some(goal), log[0].payload.tasks);
    var k := j.ev.state.value.projected.value.sequence;
    assert log[k + 1].payload.ReviewDecided? && !log[k + 1].id.Named?;
    assert log[k + 2].payload.AuditDecided? && !log[k + 2].id.Named?;
  }

  /** What stands behind a completion: over every joint run of the controllers, the projection and the goal
      runtime, each Completed event of a managed run was let in when both controllers had earned it; and it
      follows a phase path of one attempt and the pair, logged once, if and only if no decision was appended by
      hand. */
  lemma CompletedGoalsAreEarned(base: seq<RunEvent>, policy: GR.Policy, moves: seq<Move>, i: int)
    requires Created(base)
    requires var log := Steps(Start(base, policy), moves).ev.log; |base| <= i < |log| && CompletesRun(log[i])
    ensures exists k :: AdmittedAt(Start(base, policy), moves, i, k)
    ensures forall k :: AdmittedAt(Start(base, policy), moves, i, k) && Managed(Steps(Start(base, policy), moves[..k])) ==>
              var before := Steps(Start(base, policy), moves[..k]);
              && Earned(before, moves[k].goal)
              && (PairIsLogged(before) <==> NothingByHand(before.ev.log))
  {
    var start := Start(base, policy);
    EveryCompletionIsOffered(base, policy, moves, i);
    forall k | AdmittedAt(start, moves, i, k) && Managed(Steps(start, moves[..k]))
      ensures var before := Steps(start, moves[..k]);
              Earned(before, moves[k].goal) && (PairIsLogged(before) <==> NothingByHand(before.ev.log))
    {
      hide Steps, PairIsLogged, Managed, Offers, Created, Reached, PairInv, NothingByHand, Passed, RK.BothSound;
      var before := Steps(start, moves[..k]);
      EveryRunIsReached(base, policy, moves[..k]);
      OfferedIsEarned(base, before, moves[k], Steps(start, moves).ev.log[i], moves[k].goal);
      if NothingByHand(before.ev.log) {
        EveryRunKeepsPair(base, policy, moves[..k]);
        EarnedPairIsLogged(before, moves[k].goal);
      }
      if PairIsLogged(before) { LoggedPairIsNotByHand(before, moves[k].goal); }
    }
  }

  // ---------------------------------------------------------------- decisions written by hand

  /** The events of a caller that writes the pair, and then the completion, under names of its own. */
  function ByHand(log: seq<RunEvent>, p: Pair, status: RunStatus, names: (Id, Id, Id), at: Time): seq<RunEvent> {
    var review := NextEvent(log, Named(names.0), at, Reviewer, ReviewDecided(p.review));
    var audit := NextEvent(log + [review], Named(names.1), at, Auditor, AuditDecided(p.audit));
    [review, audit,
     NextEvent(log + [review] + [audit], Named(names.2), at, Coordinator, StatusMoved(status, CompletedRun))]
  }

  predicate NewNames(log: seq<RunEvent>, names: (Id, Id, Id)) {
    && names.0 != names.1 && names.0 != names.2 && names.1 != names.2
    && !Mentions(log, Named(names.0)) && !Mentions(log, Named(names.1)) && !Mentions(log, Named(names.2))
  }

  /** That can happen: the gate looks at what was decided, not at where it is logged. A caller that writes the very pair itself, under any names, completes a run whose
      chain the projection would have refused. */
  lemma HandWrittenPairIsAdmitted(j: Joint, goal: Goal, names: (Id, Id, Id), at: Time)
    requires j.readable && j.ev.state.Some? && EV.ReadableLog(j.ev.log) && Passed(j.rv) && NewNames(j.ev.log, names)
    requires j.policy.Disabled?
    requires var review := j.rv.state.value;
             && review.packet.issue6 == j.ev.state.value.digest && j.evidence == Some(review.packet.evidence)
             && RK.Verdicts(review, Pass, Pass) && PairOf(review).audit.review == PairOf(review).review.id
             && review.resolution == Some(RK.PassResolution(PairOf(review).reviewResult, PairOf(review).auditResult))
    requires ReplayRun(j.ev.log, Some(goal)).Some?
    requires var r := ReplayRun(j.ev.log, Some(goal)).value;
             var p := PairOf(j.rv.state.value);
             && r.reviews == [] && r.audits == [] && StatusAllowed(r.status, CompletedRun) && !TerminalStatus(r.status)
             && CompletionAllowed(Some(goal), r.(reviews := [p.review], audits := [p.audit]))
    ensures var p := PairOf(j.rv.state.value);
            var status := ReplayRun(j.ev.log, Some(goal)).value.status;
            var es := ByHand(j.ev.log, p, status, names, at);
            var one := j.(ev := j.ev.(log := j.ev.log + [es[0]]));
            var two := j.(ev := j.ev.(log := j.ev.log + [es[0]] + [es[1]]));
            && GR.EventAdmits(SystemOf(j), es[0], goal)
            && GR.EventAdmits(SystemOf(one), es[1], goal)
            && GR.EventAdmits(SystemOf(two), es[2], goal) && CompletesRun(es[2])
  {
    hide ReplayRun, CompletionAllowed, PhaseEvents, EV.ReadableLog, RK.BothSound;
    var log, p := j.ev.log, PairOf(j.rv.state.value);
    var r := ReplayRun(log, Some(goal)).value;
    var es := ByHand(log, p, r.status, names, at);
    assert log != [] by { ReplayedIsNotEmpty(log, Some(goal)); }
    ReplayGoesOn(log, es[0], Some(goal));
    MentionsAppend(log, es[0], Named(names.1));
    MentionsAppend(log, es[0], Named(names.2));
    ReplayGoesOn(log + [es[0]], es[1], Some(goal));
    MentionsAppend(log + [es[0]], es[1], Named(names.2));
    ReplayGoesOn(log + [es[0]] + [es[1]], es[2], Some(goal));
    ReadableGoesOn(log, es[0]);
    ReadableGoesOn(log + [es[0]], es[1]);
  }

  lemma ReplayedIsNotEmpty(events: seq<RunEvent>, goal: Option<Goal>)
    requires ReplayRun(events, goal).Some?
    ensures events != []
  {
  }

  lemma ReadableGoesOn(log: seq<RunEvent>, e: RunEvent)
    requires EV.ReadableLog(log) && e.sequence == |log| && e.previous == LastId(log) && !e.payload.PhaseNote?
    ensures EV.ReadableLog(log + [e])
  {
    AppendKeepsLinked(log, e);
  }
}
