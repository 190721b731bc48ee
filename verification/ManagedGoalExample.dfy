/** One managed goal to its end: a run that passed in its second attempt, a review that passed, and a caller that
    writes the decisions and the completion itself. */
module ManagedGoalExample {
  import opened Common
  import opened RuntimeTypes
  import opened EngineerVerifierKernel
  import opened EngineerVerifierTerminal
  import opened ReviewProjection
  import opened Replay
  import opened ManagedGoal
  import opened EngineerVerifierExamples
  import opened EngineerVerifierCommands
  import MG = ManagedGoal
  import RP = Replay
  import EV = EngineerVerifierRuns
  import EVO = EngineerVerifierOutbox
  import RV = ReviewAuditRuns
  import RK = ReviewAuditKernel
  import GR = GoalRuntime

  const BEGIN := Start(BASE, GR.Disabled)

  lemma StepsAppend(j: Joint, moves: seq<Move>, m: Move)
    ensures Steps(j, moves + [m]) == MG.Step(Steps(j, moves), m)
  {
    hide MG.Step;
    assert (moves + [m])[..|moves|] == moves;
  }

  // ---------------------------------------------------------------- the run

  function Worked(actions: seq<EV.Action>): seq<Move>
    decreases |actions|
  {
    if actions == [] then [] else Worked(actions[..|actions| - 1]) + [MG.Engineering(actions[|actions| - 1])]
  }

  lemma {:induction false} WorkedIsTheRun(j: Joint, actions: seq<EV.Action>)
    requires forall a :: a in actions ==> !a.AppendOther?
    ensures Steps(j, Worked(actions)) == j.(ev := EV.Run(j.ev, actions))
    decreases |actions|
  {
    hide EV.Apply;
    if actions != [] {
      var front, a := actions[..|actions| - 1], actions[|actions| - 1];
      WorkedIsTheRun(j, front);
      StepsAppend(j, Worked(front), MG.Engineering(a));
    }
  }

  lemma NothingElse()
    ensures forall a :: a in REVIEWBY ==> !a.AppendOther?
  {
  }

  /** What the run leaves. */
  ghost function Work(): EV.World { EV.Run(EV.Start(BASE), REVIEWBY) }

  function Last(): EvState { Checked(Phase.Reviewing, 5, ADMITTED, C5) }

  const EVENTS := [E1] + [E2] + [E3] + [E4] + [E5]

  lemma WorkIsDone()
    ensures Work().state == Some(Last()) && Work().log == BASE + EVENTS && EVO.OutboxInv(Work())
    ensures Candidate(Work().state) && Last().attempt == 2 && PhaseEvents(Work().log) != []
  {
    Reviewing2Stands();
    RewrittenBridge();
    ReviewingState();
    BaseIsFresh();
    assert Last().verifier == Some(ADMITTED) by { hide BridgeOf, PhaseEventOf; }
    assert PhaseEvents(Work().log) != [] by {
      assert Work().log[4] == E1 && E1.payload.PhaseNote? by { hide EV.Run, St; }
      hide EV.Run, PhaseEventOf;
      PhaseEventsAreInTheLog(Work().log, E1);
    }
    hide EV.Run, St, BridgeOf, PhaseEventOf, EVO.ReadableRun, PhaseEvents, UniqueIds;
    EVO.EveryRunKeepsOutbox(BASE, REVIEWBY);
  }

  // ---------------------------------------------------------------- the review

  const PACKET := RK.Packet(RK.Root(1), RK.Root(1), 1, 2, 0, 1, None, None, {REVIEW}, {(REVIEW, AUDIT)}, Last().digest, 51)
  const REVIEWED := RK.Reviewed(40, REVIEW)
  const AUDITED := RK.Audited(41, AUDIT)

  const R0 := RK.InitialReview(PACKET, NOW)
  const R1 := R0.(review := RK.ReviewStarted(NOW))
  const R2 := R0.(review := RK.ReviewRecorded(NOW, REVIEWED, NOW))
  const R3 := R2.(phase := RK.UnderAudit, auditPacket := Some(RK.AuditPacket(40, REVIEW, 60)), audit := Some(RK.AuditNotStarted))
  const R4 := R3.(audit := Some(RK.AuditStarted(NOW)))
  const R5 := R3.(audit := Some(RK.AuditRecorded(NOW, AUDITED, NOW)))
  const R6 := R5.(phase := RK.ResolvedPass, resolution := Some(RK.PassResolution(40, 41)))

  function At(revision: int, s: RK.ReviewState, note: RV.Note, reviews: int, audits: int): RV.World {
    RV.World(revision, Some(s), map[0 := RV.Driver(revision, Some(s), note)], reviews, audits)
  }

  const PASSED := At(7, R6, RV.Nothing, 1, 1)

  const ASKING := [RV.Load(0)] + [RV.Install(0, PACKET, NOW)]
  const ANSWERING := ASKING + [RV.Commit(0, RV.BeginReview(NOW))] + [RV.CallReviewer(0)] + [RV.ReviewerReturns(0, REVIEWED)]
  const OPENING := ANSWERING + [RV.Commit(0, RV.RecordReview(REVIEWED, NOW))] + [RV.Commit(0, RV.OpenAudit(60, NOW))]
  const AUDITING := OPENING + [RV.Commit(0, RV.BeginAudit(60, NOW))] + [RV.CallAuditor(0)] + [RV.AuditorReturns(0, AUDITED)]
  const PASSING := AUDITING + [RV.Commit(0, RV.RecordAudit(AUDITED, NOW))] + [RV.Commit(0, RV.ResolvePass(NOW))]

  lemma RunAppend(actions: seq<RV.Action>, a: RV.Action)
    ensures RV.Run(RV.START, actions + [a]) == RV.Apply(RV.Run(RV.START, actions), a)
  {
    hide RV.Apply;
    assert (actions + [a])[..|actions|] == actions;
  }

  /** A write of the controller on a valid state goes through. */
  lemma Writes(actions: seq<RV.Action>, revision: int, s: RK.ReviewState, note: RV.Note, reviews: int, audits: int, cmd: RV.Command)
    requires RV.Run(RV.START, actions) == At(revision, s, note, reviews, audits)
    requires RK.ValidReviewState(s) && RV.Enabled(s, cmd) && RV.Permitted(RV.Driver(revision, Some(s), note), cmd)
    ensures RV.Run(RV.START, actions + [RV.Commit(0, cmd)])
         == At(revision + 1, RV.Next(s, cmd), RV.NoteAfter(cmd), reviews, audits)
    ensures RK.ValidReviewState(RV.Next(s, cmd))
  {
    hide RK.ValidReviewState, RV.Enabled, RV.Next, RV.Permitted, RV.Run, RV.NoteAfter;
    RunAppend(actions, RV.Commit(0, cmd));
    RV.EveryWriteIsAccepted(s, cmd);
  }

  lemma Asked()
    ensures RV.Run(RV.START, ASKING) == At(1, R0, RV.Nothing, 0, 0) && RK.ValidReviewState(R0)
  {
    assert RV.Run(RV.START, []) == RV.START && [] + [RV.Load(0)] == [RV.Load(0)];
    RunAppend([], RV.Load(0));
    RunAppend([RV.Load(0)], RV.Install(0, PACKET, NOW));
    hide RV.Run;
  }

  lemma Answered()
    ensures RV.Run(RV.START, ANSWERING) == At(2, R1, RV.ReviewAnswered(REVIEWED), 1, 0) && RK.ValidReviewState(R1)
  {
    hide RV.Run, RK.ValidReviewState;
    Asked();
    Writes(ASKING, 1, R0, RV.Nothing, 0, 0, RV.BeginReview(NOW));
    var begun := ASKING + [RV.Commit(0, RV.BeginReview(NOW))];
    RunAppend(begun, RV.CallReviewer(0));
    RunAppend(begun + [RV.CallReviewer(0)], RV.ReviewerReturns(0, REVIEWED));
  }

  lemma Opened()
    ensures RV.Run(RV.START, OPENING) == At(4, R3, RV.Nothing, 1, 0) && RK.ValidReviewState(R3)
  {
    hide RV.Run, RK.ValidReviewState;
    Answered();
    Writes(ANSWERING, 2, R1, RV.ReviewAnswered(REVIEWED), 1, 0, RV.RecordReview(REVIEWED, NOW));
    Writes(ANSWERING + [RV.Commit(0, RV.RecordReview(REVIEWED, NOW))], 3, R2, RV.Nothing, 1, 0, RV.OpenAudit(60, NOW));
  }

  lemma Audited()
    ensures RV.Run(RV.START, AUDITING) == At(5, R4, RV.AuditAnswered(AUDITED), 1, 1) && RK.ValidReviewState(R4)
  {
    hide RV.Run;
    Opened();
    Writes(OPENING, 4, R3, RV.Nothing, 1, 0, RV.BeginAudit(60, NOW));
    var begun := OPENING + [RV.Commit(0, RV.BeginAudit(60, NOW))];
    RunAppend(begun, RV.CallAuditor(0));
    RunAppend(begun + [RV.CallAuditor(0)], RV.AuditorReturns(0, AUDITED));
    hide RK.ValidReviewState;
  }

  lemma ReviewPasses()
    ensures RV.Run(RV.START, PASSING) == PASSED && Passed(PASSED)
  {
    hide RV.Run, RK.ValidReviewState;
    Audited();
    Writes(AUDITING, 5, R4, RV.AuditAnswered(AUDITED), 1, 1, RV.RecordAudit(AUDITED, NOW));
    Writes(AUDITING + [RV.Commit(0, RV.RecordAudit(AUDITED, NOW))], 6, R5, RV.Nothing, 1, 1, RV.ResolvePass(NOW));
  }

  function Reviewed(actions: seq<RV.Action>): seq<Move>
    decreases |actions|
  {
    if actions == [] then [] else Reviewed(actions[..|actions| - 1]) + [MG.Reviewing(actions[|actions| - 1])]
  }

  /** A review begun on a verified run that changed one file is a run of its own. */
  lemma {:induction false} ReviewedIsTheReview(moves: seq<Move>, w: EV.World, actions: seq<RV.Action>)
    requires Steps(BEGIN, moves) == BEGIN.(ev := w) && Candidate(w.state)
    ensures Steps(BEGIN, moves + Reviewed(actions)) == BEGIN.(ev := w, rv := RV.Run(RV.START, actions))
    decreases |actions|
  {
    hide RV.Apply, Candidate;
    if actions != [] {
      var front, b := actions[..|actions| - 1], actions[|actions| - 1];
      ReviewedIsTheReview(moves, w, front);
      StepsAppend(BEGIN, moves + Reviewed(front), MG.Reviewing(b));
      assert moves + Reviewed(actions) == moves + Reviewed(front) + [MG.Reviewing(b)];
    } else {
      assert moves + [] == moves;
    }
  }

  // ---------------------------------------------------------------- the caller

  /** Run and review are over, and this is the log. */
  ghost function Done(log: seq<RunEvent>): Joint {
    Joint(Work().(log := log), PASSED, GR.Disabled, Some(51), None, true)
  }

  ghost predicate Over(moves: seq<Move>, log: seq<RunEvent>) { Steps(BEGIN, moves) == Done(log) }

  const BOTHDONE := Worked(REVIEWBY) + Reviewed(PASSING) + [Surroundings(true, Some(51), None)]

  lemma BothAreDone()
    ensures Over(BOTHDONE, BASE + EVENTS)
  {
    WorkIsDone();
    NothingElse();
    ReviewPasses();
    hide EV.Run, RV.Run, Candidate, EVO.OutboxInv, GR.PlannedEvents, PhaseEvents, EV.Apply, RV.Apply, Passed, Worked, Reviewed, Steps;
    WorkedIsTheRun(BEGIN, REVIEWBY);
    ReviewedIsTheReview(Worked(REVIEWBY), Work(), PASSING);
    StepsAppend(BEGIN, Worked(REVIEWBY) + Reviewed(PASSING), Surroundings(true, Some(51), None));
  }

  /** The names the log uses are smaller. */
  predicate Below(log: seq<RunEvent>, name: Id) { forall i :: 0 <= i < |log| && log[i].id.Named? ==> log[i].id.name < name }

  /** How far the caller is, and what the log replays to. */
  ghost predicate Reaches(moves: seq<Move>, log: seq<RunEvent>, r: Replayed, name: Id) {
    Over(moves, log) && 4 <= |log| && ReplayRun(log, Some(GOAL)) == Some(r) && Below(log, name)
  }

  lemma Appends(moves: seq<Move>, log: seq<RunEvent>, r: Replayed, name: Id, producer: Role, payload: Payload, n: Replayed)
    requires Reaches(moves, log, r, name) && !payload.RunCreated? && !payload.PhaseNote?
    requires var e := NextEvent(log, Named(name), NOW, producer, payload); !CompletesRun(e) && ReplayStep(Some(GOAL), r, e) == Some(n)
    ensures var e := NextEvent(log, Named(name), NOW, producer, payload);
            Reaches(moves + [Append(e, GOAL, true)], log + [e], n, name + 1)
  {
    var e := NextEvent(log, Named(name), NOW, producer, payload);
    hide EV.Run, ReplayRun, ReplayStep, GR.LoadManaged, GR.FindAuthority, GR.IndependentlyAdmitted;
    assert !Mentions(log, e.id);
    ReplayGoesOn(log, e, Some(GOAL));
    Admitted(moves, log, e);
  }

  lemma Admitted(moves: seq<Move>, log: seq<RunEvent>, e: RunEvent)
    requires Over(moves, log) && Outside(e) && GR.EventAdmits(SystemOf(Steps(BEGIN, moves)), e, GOAL) && Continues(log, e)
    ensures Over(moves + [Append(e, GOAL, true)], log + [e])
  {
    hide Steps, GR.EventAdmits, Continues, Outside, SystemOf, GR.PlannedEvents, EV.Run, Start;
    AppendIsLogged(BEGIN, moves, e, GOAL);
  }

  lemma AppendIsLogged(start: Joint, moves: seq<Move>, e: RunEvent, goal: Goal)
    requires Outside(e) && GR.EventAdmits(SystemOf(Steps(start, moves)), e, goal)
    requires Continues(Steps(start, moves).ev.log, e)
    ensures var j := Steps(start, moves);
            Steps(start, moves + [Append(e, goal, true)]) == j.(ev := j.ev.(log := j.ev.log + [e]))
  {
    hide Steps, GR.EventAdmits, Logged;
    StepsAppend(start, moves, Append(e, goal, true));
    LoggedAppends(Steps(start, moves), e);
  }

  // ---------------------------------------------------------------- what the log replays to

  const PLANNED := RP.Created([2]).(status := PlannedRun, planned := true)
  const CLAIMED := PLANNED.(status := AuditingRun, references := [50], claim := Some(CLAIM))

  lemma BaseReplays()
    ensures ReplayRun(BASE, Some(GOAL)) == Some(PLANNED)
  {
    assert Flattened([[2]]) == [2] by { assert [[2]][1..] == [] && [2] + [] == [2]; }
    GR.PlannedRunReplays(GOAL, [2], [[2]], STAMPS, 4);
  }

  /** Phase events change nothing of what a log replays to. */
  lemma {:induction false} PhasesReplay(log: seq<RunEvent>, events: seq<RunEvent>, r: Replayed)
    requires ReplayRun(log, Some(GOAL)) == Some(r) && Linked(log + events) && UniqueIds(log + events)
    requires forall i :: 0 <= i < |events| ==> events[i].payload.PhaseNote?
    ensures ReplayRun(log + events, Some(GOAL)) == Some(r)
    decreases |events|
  {
    var all := log + events;
    if events == [] {
      assert all == log;
    } else {
      var n := |all| - 1;
      var front, e := events[..|events| - 1], all[n];
      assert log + front == all[..n] && all == log + front + [e] && e == events[|events| - 1];
      PrefixIsLinked(all, n);
      PrefixIsUnique(all, n);
      PhasesReplay(log, front, r);
      assert LinkedAt(all, n);
      forall i | 0 <= i < n ensures all[..n][i].id != e.id { assert all[i].id != all[n].id; }
      hide ReplayRun, Linked, UniqueIds;
      ReplayGoesOn(log + front, e, Some(GOAL));
    }
  }

  lemma WorkReplays()
    ensures Reaches(BOTHDONE, BASE + EVENTS, PLANNED, 104)
  {
    hide EV.Run, ReplayRun, Linked, UniqueIds, Over, Below;
    BothAreDone();
    BaseReplays();
    WorkIsDone();
    BaseIsFresh();
    NamesBelow();
    assert Linked(Work().log) by { LinkedIn(Work()); }
    IdsAreUnique();
    PhasesReplay(BASE, EVENTS, PLANNED);
  }

  lemma IdsAreUnique()
    ensures UniqueIds(BASE + EVENTS)
  {
    BaseIsNamed();
    EventsAreNumbered();
    hide BridgeOf, St, GR.PlannedEvents, PhaseEventOf;
    var all := BASE + EVENTS;
    forall i, j | 0 <= i < j < 9 ensures all[i].id != all[j].id {
      assert all[i] == if i < 4 then BASE[i] else EVENTS[i - 4];
      assert all[j] == if j < 4 then BASE[j] else EVENTS[j - 4];
    }
  }

  lemma EventsAreNumbered()
    ensures forall i :: 0 <= i < 5 ==> EVENTS[i].id.PhaseEventId? && EVENTS[i].id.phaseRevision == i + 1
  {
    hide BridgeOf;
  }

  lemma BaseIsNamed()
    ensures |BASE| == 4 && forall i :: 0 <= i < 4 ==> BASE[i].id == Named(100 + i)
  {
  }

  lemma NamesBelow()
    ensures Below(BASE + EVENTS, 104)
    ensures forall i :: 0 <= i < |EVENTS| ==> EVENTS[i].payload.PhaseNote?
  {
    hide BridgeOf, St;
  }

  // ---------------------------------------------------------------- what the caller appends

  /** The caller moves the run to the status it must complete from. */
  lemma CallerMoves() returns (moves: seq<Move>, log: seq<RunEvent>)
    ensures Reaches(moves, log, PLANNED.(status := AuditingRun), 107)
  {
    hide Reaches, ReplayRun, GR.PlannedEvents, CompletionAllowed, PlanFits, BridgeOf, PhaseEventOf, St;
    WorkReplays();
    moves, log := BOTHDONE, BASE + EVENTS;
    moves, log := CallerAppends(moves, log, PLANNED, 104, StatusMoved(PlannedRun, RunningRun), PLANNED.(status := RunningRun));
    moves, log := CallerAppends(moves, log, PLANNED.(status := RunningRun), 105, StatusMoved(RunningRun, ReviewingRun),
      PLANNED.(status := ReviewingRun));
    moves, log := CallerAppends(moves, log, PLANNED.(status := ReviewingRun), 106, StatusMoved(ReviewingRun, AuditingRun),
      PLANNED.(status := AuditingRun));
  }

  /** And claims the completion. */
  lemma CallerClaims() returns (moves: seq<Move>, log: seq<RunEvent>)
    ensures Reaches(moves, log, CLAIMED, 109)
  {
    hide Reaches, ReplayRun, GR.PlannedEvents, CompletionAllowed, PlanFits, BridgeOf, PhaseEventOf, St;
    moves, log := CallerMoves();
    var referenced := PLANNED.(status := AuditingRun, references := [50]);
    assert PLANNED.references + [50] == [50];
    moves, log := CallerAppends(moves, log, PLANNED.(status := AuditingRun), 107, EvidenceReferenced(50), referenced);
    moves, log := CallerAppends(moves, log, referenced, 108, CompletionClaimed(CLAIM), CLAIMED);
  }

  lemma CallerAppends(moves: seq<Move>, log: seq<RunEvent>, r: Replayed, name: Id, payload: Payload, n: Replayed)
    returns (after: seq<Move>, longer: seq<RunEvent>)
    requires Reaches(moves, log, r, name) && !payload.RunCreated? && !payload.PhaseNote?
    requires var e := NextEvent(log, Named(name), NOW, Coordinator, payload); !CompletesRun(e) && ReplayStep(Some(GOAL), r, e) == Some(n)
    ensures Reaches(after, longer, n, name + 1)
  {
    Appends(moves, log, r, name, Coordinator, payload, n);
    var e := NextEvent(log, Named(name), NOW, Coordinator, payload);
    after, longer := moves + [Append(e, GOAL, true)], log + [e];
  }

  lemma GoalAllowsIt()
    ensures StatusAllowed(CLAIMED.status, CompletedRun)
            && CompletionAllowed(Some(GOAL), CLAIMED.(reviews := [REVIEW], audits := [AUDIT]))
  {
    assert (set x | x in CLAIM.evidence) == {50};
  }

  const PAIR := Pair(REVIEW, AUDIT, 40, 41)

  lemma ReviewedPair()
    ensures Passed(PASSED) && PairOf(PASSED.state.value) == PAIR
  {
  }

  /** The caller's last three events are let in one after the other. */
  lemma ByHandIsAdmitted(log: seq<RunEvent>)
    requires ReplayRun(log, Some(GOAL)) == Some(CLAIMED) && Below(log, 109) && EV.ReadableLog(log)
    ensures var es := ByHand(log, PAIR, AuditingRun, (109, 110, 111), NOW);
            && GR.EventAdmits(SystemOf(Done(log)), es[0], GOAL)
            && GR.EventAdmits(SystemOf(Done(log + [es[0]])), es[1], GOAL)
            && GR.EventAdmits(SystemOf(Done(log + [es[0]] + [es[1]])), es[2], GOAL)
  {
    GoalAllowsIt();
    WorkIsDone();
    ReviewPasses();
    ReviewedPair();
    hide EV.Run, RV.Run, ReplayRun, CompletionAllowed, GR.EventAdmits, EV.ReadableLog, EVO.OutboxInv, GR.PlannedEvents, St,
      BridgeOf, PhaseEventOf, PhaseEvents, Candidate, ByHand;
    HandWrittenPairIsAdmitted(Done(log), GOAL, (109, 110, 111), NOW);
  }

  lemma ByHandContinues(log: seq<RunEvent>)
    requires Below(log, 109)
    ensures var es := ByHand(log, PAIR, AuditingRun, (109, 110, 111), NOW);
            && Outside(es[0]) && Outside(es[1]) && Outside(es[2]) && CompletesRun(es[2])
            && Continues(log, es[0]) && Continues(log + [es[0]], es[1]) && Continues(log + [es[0]] + [es[1]], es[2])
            && !NothingByHand(log + [es[0]] + [es[1]])
  {
    var es := ByHand(log, PAIR, AuditingRun, (109, 110, 111), NOW);
    MentionsAppend(log, es[0], Named(110));
    MentionsAppend(log, es[0], Named(111));
    MentionsAppend(log + [es[0]], es[1], Named(111));
    assert (log + [es[0]] + [es[1]])[|log|] == es[0];
  }

  lemma ByHandGoesThrough(moves: seq<Move>, log: seq<RunEvent>)
    requires Reaches(moves, log, CLAIMED, 109)
    ensures var es := ByHand(log, PAIR, AuditingRun, (109, 110, 111), NOW);
            var two := moves + [Append(es[0], GOAL, true)] + [Append(es[1], GOAL, true)];
            && Over(two, log + [es[0]] + [es[1]])
            && GR.EventAdmits(SystemOf(Steps(BEGIN, two)), es[2], GOAL)
            && Over(two + [Append(es[2], GOAL, true)], log + [es[0]] + [es[1]] + [es[2]])
  {
    hide Done, ReplayRun, GR.EventAdmits, EV.ReadableLog, Continues, Outside, SystemOf, Steps, PairOf, NothingByHand;
    var es := ByHand(log, PAIR, AuditingRun, (109, 110, 111), NOW);
    OverIsReadable(moves, log);
    ByHandIsAdmitted(log);
    ByHandContinues(log);
    hide ByHand;
    var one := moves + [Append(es[0], GOAL, true)];
    Admitted(moves, log, es[0]);
    Admitted(one, log + [es[0]], es[1]);
    Admitted(one + [Append(es[1], GOAL, true)], log + [es[0]] + [es[1]], es[2]);
  }

  lemma OverIsReadable(moves: seq<Move>, log: seq<RunEvent>)
    requires Over(moves, log)
    ensures EV.ReadableLog(log) && TerminalChain(log, Last()).None?
  {
    BaseIsCreated();
    WorkIsDone();
    EveryRunIsReached(BASE, GR.Disabled, moves);
    ReachedFacts(BASE, Steps(BEGIN, moves));
    ReadableRunIsReadable(log) by { hide EV.Run; }
  }

  lemma BaseIsCreated()
    ensures MG.Created(BASE)
  {
    BaseIsFresh();
  }

  // ---------------------------------------------------------------- the completed goal

  /** The last event completes the run, and was let in by the last move: both controllers had earned it, but the
      chain of the run's state is refused, and the decisions were not logged by the projection. */
  ghost predicate CompletedByHand(start: Joint, moves: seq<Move>, goal: Goal, s: EvState) {
    && moves != []
    && var log, k := Steps(start, moves).ev.log, |moves| - 1;
       (&& log != [] && AdmittedAt(start, moves, |log| - 1, k) && CompletesRun(log[|log| - 1])
        && var before := Steps(start, moves[..k]);
           (&& Managed(before) && Earned(before, goal) && !PairIsLogged(before)
            && before.ev.state == Some(s) && TerminalChain(before.ev.log, s).None?))
  }

  /** Everything but the completion is there, which would go through. */
  ghost predicate Ripe(start: Joint, moves: seq<Move>, e: RunEvent, goal: Goal, s: EvState) {
    var before := Steps(start, moves);
    && Managed(before) && before.ev.state == Some(s) && TerminalChain(before.ev.log, s).None?
    && !NothingByHand(before.ev.log)
    && CompletesRun(e) && GR.EventAdmits(SystemOf(before), e, goal)
    && Steps(start, moves + [Append(e, goal, true)]).ev.log == before.ev.log + [e]
  }

  lemma LastIsAdmitted(start: Joint, moves: seq<Move>, e: RunEvent, goal: Goal)
    requires GR.EventAdmits(SystemOf(Steps(start, moves)), e, goal)
    requires Steps(start, moves + [Append(e, goal, true)]).ev.log == Steps(start, moves).ev.log + [e]
    ensures var all := moves + [Append(e, goal, true)];
            AdmittedAt(start, all, |Steps(start, all).ev.log| - 1, |moves|) && all[..|moves|] == moves
  {
    hide Steps, GR.EventAdmits, GR.VerifiedAdmits, SystemOf;
    var all := moves + [Append(e, goal, true)];
    assert all[..|moves|] == moves;
  }

  lemma RipeCompletes(base: seq<RunEvent>, moves: seq<Move>, e: RunEvent, goal: Goal, s: EvState)
    requires MG.Created(base) && Ripe(Start(base, GR.Disabled), moves, e, goal, s)
    requires |base| <= |Steps(Start(base, GR.Disabled), moves).ev.log|
    ensures CompletedByHand(Start(base, GR.Disabled), moves + [Append(e, goal, true)], goal, s)
  {
    hide Steps, GR.EventAdmits, AdmittedAt, SystemOf, TerminalChain, MG.Created, Earned, PairIsLogged, NothingByHand, Managed,
      Start;
    var start := Start(base, GR.Disabled);
    var all := moves + [Append(e, goal, true)];
    LastIsAdmitted(start, moves, e, goal);
    EarnedAt(base, all, |Steps(start, moves).ev.log|, |moves|);
  }

  lemma EarnedAt(base: seq<RunEvent>, moves: seq<Move>, i: int, k: int)
    requires MG.Created(base) && AdmittedAt(Start(base, GR.Disabled), moves, i, k)
    requires |base| <= i && CompletesRun(Steps(Start(base, GR.Disabled), moves).ev.log[i])
    requires Managed(Steps(Start(base, GR.Disabled), moves[..k]))
    ensures var before := Steps(Start(base, GR.Disabled), moves[..k]);
            Earned(before, moves[k].goal) && (PairIsLogged(before) <==> NothingByHand(before.ev.log))
  {
    hide Steps, MG.Created, Earned, PairIsLogged, NothingByHand, Managed, Start, Offers;
    CompletedGoalsAreEarned(base, GR.Disabled, moves, i);
  }

  lemma HandWrittenIsRipe() returns (moves: seq<Move>, e: RunEvent)
    ensures Ripe(BEGIN, moves, e, GOAL, Last()) && |BASE| <= |Steps(BEGIN, moves).ev.log|
  {
    var first, log := CallerClaims();
    var es := ByHand(log, PAIR, AuditingRun, (109, 110, 111), NOW);
    moves, e := first + [Append(es[0], GOAL, true)] + [Append(es[1], GOAL, true)], es[2];
    ByHandGoesThrough(first, log);
    ByHandContinues(log);
    hide ByHand, Continues;
    LastMoveIsRipe(moves, log + [es[0]] + [es[1]], e);
  }

  lemma LastMoveIsRipe(moves: seq<Move>, log: seq<RunEvent>, e: RunEvent)
    requires Over(moves, log) && !NothingByHand(log) && CompletesRun(e)
    requires GR.EventAdmits(SystemOf(Steps(BEGIN, moves)), e, GOAL)
    requires Over(moves + [Append(e, GOAL, true)], log + [e]) && 4 <= |log|
    ensures Ripe(BEGIN, moves, e, GOAL, Last()) && |BASE| <= |Steps(BEGIN, moves).ev.log|
  {
    hide Steps, EVO.ReadableRun, PhaseEvents, UniqueIds, GoodHead, St, BridgeOf, PhaseEventOf, EV.ReadableLog, GR.EventAdmits, GR.PlannedEvents, TerminalChain, NothingByHand, Done, SystemOf, Managed;
    OverIsReadable(moves, log);
    DoneIsManaged(log);
    DoneIsManaged(log + [e]);
    BaseIsFresh();
  }

  lemma DoneIsManaged(log: seq<RunEvent>)
    ensures Managed(Done(log)) && Done(log).ev.log == log && Done(log).ev.state == Some(Last())
  {
    WorkIsDone();
    hide EV.Run, PhaseEvents, EVO.OutboxInv, Candidate, St, BridgeOf, PhaseEventOf, GR.PlannedEvents;
  }

  /** A managed goal can be completed by a caller that logs the decisions itself: here over a run of two attempts,
      whose chain the projection refuses for good. */
  lemma AHandWrittenPairCompletesARetriedRun()
    ensures exists moves :: CompletedByHand(BEGIN, moves, GOAL, Last()) && Last().attempt == 2
  {
    var moves, e := HandWrittenIsRipe();
    BaseIsCreated();
    hide Ripe, CompletedByHand, GR.PlannedEvents, MG.Created, Steps;
    RipeCompletes(BASE, moves, e, GOAL, Last());
    ReviewingState();
  }
}
