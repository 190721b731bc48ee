/** The review controller itself: one driver, racing with any others on the durable cell. Every method is a
    run of the step system. What the others do, the evidence's currency, the clock and the executor's answers
    are chosen arbitrarily. */
module ReviewAuditLoop {
  import opened Common
  import opened RuntimeTypes
  import opened ReviewAuditKernel
  import opened ReviewAuditRuns

  const ME: DriverId := 0

  function ActorOf(a: Action): DriverId { a.d }

  /** Actions of other drivers. */
  predicate ByOthers(actions: seq<Action>) { forall i :: 0 <= i < |actions| ==> ActorOf(actions[i]) != ME }

  lemma RunAppend(actions: seq<Action>, a: Action)
    ensures Run(START, actions + [a]) == Apply(Run(START, actions), a)
  {
    hide Apply;
    assert (actions + [a])[..|actions|] == actions;
  }

  lemma {:induction false} RunsCompose(first: seq<Action>, later: seq<Action>)
    ensures Run(START, first + later) == Run(Run(START, first), later)
    decreases |later|
  {
    hide Apply;
    if later == [] {
      assert first + later == first;
    } else {
      RunsCompose(first, later[..|later| - 1]);
      assert (first + later)[..|first + later| - 1] == first + later[..|later| - 1];
    }
  }

  lemma OtherLeavesMe(w: World, a: Action)
    requires ME in w.drivers && ActorOf(a) != ME
    ensures var v := Apply(w, a);
            && ME in v.drivers && v.drivers[ME] == w.drivers[ME]
            && w.revision <= v.revision && (v.revision == w.revision ==> v.state == w.state)
  {
    hide CommitApplies, Next;
  }

  /** Others leave a driver as it was; unless one of them wrote, the state too. */
  lemma {:induction false} OthersLeaveMe(w: World, others: seq<Action>)
    requires ME in w.drivers && ByOthers(others)
    ensures var v := Run(w, others);
            && ME in v.drivers && v.drivers[ME] == w.drivers[ME]
            && w.revision <= v.revision && (v.revision == w.revision ==> v.state == w.state)
    decreases |others|
  {
    hide Apply;
    if others != [] {
      OthersLeaveMe(w, others[..|others| - 1]);
      OtherLeavesMe(Run(w, others[..|others| - 1]), others[|others| - 1]);
    }
  }

  lemma CommitIsAWrite(w: World, cmd: Command)
    requires ME in w.drivers && Current(w, ME) && w.state.Some?
    requires Permitted(w.drivers[ME], cmd) && ValidReviewState(w.state.value) && Enabled(w.state.value, cmd)
    ensures var n := Next(w.state.value, cmd);
            && Apply(w, Commit(ME, cmd)) == Wrote(w, ME, n, NoteAfter(cmd))
            && Remaining(n) < Remaining(w.state.value) && n.packet == w.state.value.packet
  {
    EveryWriteIsAccepted(w.state.value, cmd);
    EveryWriteDecreases(w.state.value, Next(w.state.value, cmd));
    hide Enabled, Next, ValidReviewState, AllowedUnderReview, AllowedUnderAudit;
  }

  lemma StaleCommitIsRefused(w: World, cmd: Command)
    requires ME in w.drivers && w.drivers[ME].revision != w.revision
    ensures Apply(w, Commit(ME, cmd)) == w
  {
    hide Enabled, Next;
  }

  lemma DriversFit(w: World)
    requires ReviewAuditRuns.Inv(w)
    ensures Snapshots(w) && (w.state.Some? ==> ValidReviewState(w.state.value))
  {
    hide ValidReviewState;
  }

  /** The steps of the drive loop need nothing the driver did not just learn. */
  lemma StepsAreFree(s: ReviewState, current: bool, input: Input, now: Time, driver: Driver)
    requires StepOf(s, current, input, now).Some?
    ensures Permitted(driver, StepOf(s, current, input, now).value)
  {
    hide SoundReview, SoundAudit;
  }

  lemma InstallIsAWrite(w: World, packet: Packet, now: Time)
    requires ME in w.drivers && Current(w, ME) && w.state.None? && ValidPacket(packet)
    ensures var n := InitialReview(packet, now);
            ValidReviewState(n) && !Resolved(n.phase) && Apply(w, Install(ME, packet, now)) == Wrote(w, ME, n, Nothing)
  {
  }

  lemma StaleInstallIsRefused(w: World, packet: Packet, now: Time)
    requires ME in w.drivers && w.drivers[ME].revision != w.revision
    ensures Apply(w, Install(ME, packet, now)) == w
  {
    hide ValidReviewState;
  }

  /** Why a driver gives up with an error. */
  datatype Refusal = InvalidPacket | OtherPacket | DifferentInputs | DifferentSuccessor | NoAnswer

  /** A round continues, or ends because another driver wrote, or with an error. */
  datatype Progress = Continue | InProgress | Refused(why: Refusal)

  class ReviewLoop {
    var world: World
    ghost var actions: seq<Action>

    ghost predicate Valid()
      reads this
    {
      world == Run(START, actions) && ReviewAuditRuns.Inv(world) && ME in world.drivers
    }

    /** What the driver loaded or last wrote. */
    function Mine(): (d: Driver)
      requires ME in world.drivers
      reads this
    {
      world.drivers[ME]
    }

    /** The driver works on a state the cell once held. */
    predicate Holds()
      reads this
    {
      ME in world.drivers && Mine().state.Some? && ValidReviewState(Mine().state.value)
    }

    /** Another driver has written since. */
    predicate Overtaken()
      reads this
    {
      ME in world.drivers && Mine().revision < world.revision
    }

    constructor ()
      ensures Valid() && world.state.None? && Mine() == Driver(0, None, Nothing)
    {
      world := START.(drivers := map[ME := Driver(0, None, Nothing)]);
      actions := [Load(ME)];
      new;
      RunAppend([], Load(ME));
      EveryRunKeepsInv(actions);
    }

    ghost method Record(more: seq<Action>, before: World)
      requires before == Run(START, actions) && world == Run(before, more) && ME in world.drivers
      modifies `actions
      ensures Valid() && actions == old(actions) + more
    {
      RunsCompose(actions, more);
      actions := actions + more;
      EveryRunKeepsInv(actions);
    }

    method Act(a: Action)
      requires Valid() && ME in Apply(world, a).drivers
      modifies this
      ensures Valid() && world == Apply(old(world), a) && actions == old(actions) + [a]
    {
      hide Apply, ReviewAuditRuns.Inv;
      ghost var before := world;
      world := Apply(world, a);
      Record([a], before);
    }

    /** Whatever the other drivers do meanwhile. */
    method Others()
      requires Valid()
      modifies this
      ensures Valid() && Mine() == old(Mine()) && old(actions) <= actions
      ensures old(world.revision) <= world.revision && (world.revision == old(world.revision) ==> world.state == old(world.state))
    {
      hide Apply, ReviewAuditRuns.Inv;
      var others: seq<Action> := *;
      if !ByOthers(others) { others := []; }
      OthersLeaveMe(world, others);
      ghost var before := world;
      world := Run(world, others);
      Record(others, before);
    }

    method Resume()
      requires Valid()
      modifies this
      ensures Valid() && world.state == old(world.state) && Mine() == Driver(world.revision, world.state, Nothing)
      ensures world.state.Some? ==> Holds()
    {
      hide ValidReviewState;
      Act(Load(ME));
      DriversFit(world);
    }

    /** One compare-and-swap, while others may write first: it applies exactly when none of them did. */
    method CasReplace(cmd: Command) returns (applied: bool)
      requires Valid() && Holds() && Permitted(Mine(), cmd) && Enabled(Mine().state.value, cmd)
      modifies this
      ensures Valid() && Holds()
      ensures !applied ==> Mine() == old(Mine()) && Overtaken()
      ensures applied ==>
                && Mine() == Driver(world.revision, world.state, NoteAfter(cmd))
                && world.state == Some(Next(old(Mine()).state.value, cmd))
                && Remaining(world.state.value) < Remaining(old(Mine()).state.value)
                && world.state.value.packet == old(Mine()).state.value.packet
      ensures old(Overtaken()) ==> !applied
    {
      hide Run, Enabled, Next, ValidReviewState, Permitted, NoteAfter, Apply, ReviewAuditRuns.Inv;
      Others();
      DriversFit(world);
      applied := Mine().revision == world.revision;
      if applied { CommitIsAWrite(world, cmd); } else { StaleCommitIsRefused(world, cmd); }
      Act(Commit(ME, cmd));
      DriversFit(world);
    }

    /** Calls the Reviewer once its Started record is durable, and records what it answered; a failing call
        leaves the record as it is, to be found by the next driver. */
    method StartReview(now: Time, reviewed: Option<ReviewOutcome>, later: Time) returns (r: Progress)
      requires Valid() && Holds() && Enabled(Mine().state.value, BeginReview(now)) && now <= later
      modifies this
      ensures Valid() && Holds() && Mine().state.value.packet == old(Mine()).state.value.packet
      ensures r.Continue? ==>
                && reviewed.Some? && world.reviewerCalls == 1
                && Remaining(Mine().state.value) < Remaining(old(Mine()).state.value)
                && Mine().state.value.review == ReviewRecorded(now, reviewed.value, later)
                && Mine().state.value.auditPacket == old(Mine()).state.value.auditPacket
      ensures r.InProgress? ==> Overtaken()
      ensures r.Refused? ==>
                && r.why.NoAnswer? && reviewed.None? && world.reviewerCalls == 1
                && Mine().state.value.review == ReviewStarted(now)
    {
      hide Run, ValidReviewState, ReviewAuditRuns.Inv, CommitApplies;
      var applied := CasReplace(BeginReview(now));
      if !applied { return InProgress; }
      Act(CallReviewer(ME));
      CalledOnce(world);
      if reviewed.None? { return Refused(NoAnswer); }
      Act(ReviewerReturns(ME, reviewed.value));
      applied := CasReplace(RecordReview(reviewed.value, later));
      CalledOnce(world);
      r := if applied then Continue else InProgress;
    }

    method StartAudit(inputs: Id, now: Time, audited: Option<AuditOutcome>, later: Time) returns (r: Progress)
      requires Valid() && Holds() && Enabled(Mine().state.value, BeginAudit(inputs, now)) && now <= later
      modifies this
      ensures Valid() && Holds() && Mine().state.value.packet == old(Mine()).state.value.packet
      ensures r.Continue? ==>
                && audited.Some? && world.auditorCalls == 1
                && Remaining(Mine().state.value) < Remaining(old(Mine()).state.value)
                && Mine().state.value.audit == Some(AuditRecorded(now, audited.value, later))
                && Mine().state.value.auditPacket == old(Mine()).state.value.auditPacket
      ensures r.InProgress? ==> Overtaken()
      ensures r.Refused? ==>
                && r.why.NoAnswer? && audited.None? && world.auditorCalls == 1
                && Mine().state.value.audit == Some(AuditStarted(now))
    {
      hide Run, ValidReviewState, ReviewAuditRuns.Inv, CommitApplies;
      var applied := CasReplace(BeginAudit(inputs, now));
      if !applied { return InProgress; }
      Act(CallAuditor(ME));
      CalledOnce(world);
      if audited.None? { return Refused(NoAnswer); }
      Act(AuditorReturns(ME, audited.value));
      applied := CasReplace(RecordAudit(audited.value, later));
      CalledOnce(world);
      r := if applied then Continue else InProgress;
    }

    /** One round of the drive loop: the step the state asks for. It is refused exactly for inputs that do not
        fit the state, or a call that gave no answer. */
    method ResumeStep(input: Input) returns (r: Progress)
      requires Valid() && Holds() && !Resolved(Mine().state.value.phase)
      modifies this
      ensures Valid() && Holds() && Mine().state.value.packet == old(Mine()).state.value.packet
      ensures r.Continue? ==> Remaining(Mine().state.value) < Remaining(old(Mine()).state.value)
      ensures r.InProgress? ==> Overtaken()
      ensures old(OtherInputs(Mine().state.value, input)) <==> r == Refused(DifferentInputs)
      ensures old(OtherSuccessor(Mine().state.value, input)) <==> r == Refused(DifferentSuccessor)
      ensures r.Refused? && !r.why.NoAnswer? ==> world == old(world)
      ensures r.Refused? ==> r.why.NoAnswer? || r.why.DifferentInputs? || r.why.DifferentSuccessor?
    {
      hide Run, Apply, ValidReviewState, Permitted, NoteAfter, ReviewAuditRuns.Inv, SoundReview, SoundAudit;
      var current: bool := *;
      var now: Time := *;
      var s := Mine().state.value;
      if now < s.time { now := s.time; }
      EveryUnresolvedReviewMovesOn(s, current, input, now);
      var step := StepOf(s, current, input, now);
      if step.None? {
        return Refused(if OtherInputs(s, input) then DifferentInputs else DifferentSuccessor);
      }
      StepsAreFree(s, current, input, now, Mine());
      hide StepOf, OtherInputs, OtherSuccessor, Enabled, Next;
      var cmd := step.value;
      if cmd.BeginReview? {
        var reviewed: Option<ReviewOutcome> := *;
        r := StartReview(now, reviewed, now) by { StartsNow(cmd, s, current, input, now); }
      } else if cmd.BeginAudit? {
        var audited: Option<AuditOutcome> := *;
        r := StartAudit(input.inputs, now, audited, now) by { StartsNow(cmd, s, current, input, now); }
      } else {
        var applied := CasReplace(cmd);
        r := if applied then Continue else InProgress;
      }
    }

    /** Drives the review from whatever is stored until it is resolved, another driver wrote, or it is refused.
        A call that had started before is not repeated. */
    method Drive(packet: Packet, input: Input, now: Time) returns (r: Progress)
      requires Valid()
      modifies this
      ensures Valid()
      ensures r == Refused(InvalidPacket) <==> !ValidPacket(packet)
      ensures r == Refused(OtherPacket) <==>
                ValidPacket(packet) && old(world.state).Some? && old(world.state).value.packet != packet
      ensures r.Continue? ==>
                && Holds() && Resolved(Mine().state.value.phase) && Mine().state.value.packet == packet
                && (Mine().state.value.phase.ResolvedPass? ==>
                      BothSound(Mine().state.value) && Verdicts(Mine().state.value, Pass, Pass))
                && (Mine().state.value.phase.RepairDirected? && Mine().state.value.directive.Some? ==>
                      input.successor == Some(Mine().state.value.directive.value.successorRun))
      ensures r.InProgress? ==> Overtaken()
      ensures r == Refused(DifferentInputs) ==> Holds() && OtherInputs(Mine().state.value, input)
      ensures r == Refused(DifferentSuccessor) ==>
                Holds() && (OtherSuccessor(Mine().state.value, input) || DirectsElsewhere(Mine().state.value, input))
      ensures 0 <= world.reviewerCalls <= 1 && 0 <= world.auditorCalls <= 1
    {
      hide Run, Apply, ValidReviewState, ValidPacket, Enabled, Next, Permitted, SoundReview, SoundAudit;
      hide ReviewAuditRuns.Inv, OtherInputs, OtherSuccessor, BothSound;
      ReviewerAndAuditorAreCalledAtMostOnce(actions);
      if !ValidPacket(packet) { return Refused(InvalidPacket); }
      Resume();
      CallsAreBounded(world);
      if Mine().state.Some? {
        if Mine().state.value.packet != packet { return Refused(OtherPacket); }
      } else {
        Others();
        DriversFit(world);
        var applied := Mine().revision == world.revision;
        if applied { InstallIsAWrite(world, packet, now); } else { StaleInstallIsRefused(world, packet, now); }
        Act(Install(ME, packet, now));
        CallsAreBounded(world);
        if !applied { return InProgress; }
        DriversFit(world);
      }
      r := Continue;
      while r.Continue? && !Resolved(Mine().state.value.phase)
        invariant Valid() && Holds() && Mine().state.value.packet == packet
        invariant r.InProgress? ==> Overtaken()
        invariant r == Refused(DifferentInputs) ==> OtherInputs(Mine().state.value, input)
        invariant r == Refused(DifferentSuccessor) ==> OtherSuccessor(Mine().state.value, input)
        invariant r.Refused? ==> !r.why.InvalidPacket? && !r.why.OtherPacket?
        decreases r.Continue?, Remaining(Mine().state.value)
      {
        r := ResumeStep(input);
      }
      CallsAreBounded(world);
      if r.Continue? {
        if Mine().state.value.phase.ResolvedPass? { PassMeansTwoPasses(Mine().state.value); }
        if DirectsElsewhere(Mine().state.value, input) { r := Refused(DifferentSuccessor); }
      }
    }
  }

  /** A directed repair for another successor than the driver was given. */
  predicate DirectsElsewhere(s: ReviewState, input: Input) {
    s.phase.RepairDirected? && s.directive.Some? && input.successor != Some(s.directive.value.successorRun)
  }

  lemma StartsNow(cmd: Command, s: ReviewState, current: bool, input: Input, now: Time)
    requires StepOf(s, current, input, now) == Some(cmd)
    ensures cmd.BeginReview? ==> cmd == BeginReview(now)
    ensures cmd.BeginAudit? ==> cmd == BeginAudit(input.inputs, now)
  {
    hide SoundReview, SoundAudit;
  }

  /** A call that was made is the only one there ever is. */
  lemma CalledOnce(w: World)
    requires ReviewAuditRuns.Inv(w) && ME in w.drivers
    ensures w.drivers[ME].note.InReview? || w.drivers[ME].note.ReviewAnswered? ==> w.reviewerCalls == 1
    ensures w.drivers[ME].note.InAudit? || w.drivers[ME].note.AuditAnswered? ==> w.auditorCalls == 1
    ensures w.state.Some? && w.state.value.review.ReviewRecorded? ==> w.reviewerCalls == 1
    ensures w.state.Some? && w.state.value.audit.Some? && w.state.value.audit.value.AuditRecorded? ==> w.auditorCalls == 1
  {
    hide ValidReviewState;
    if w.state.Some? { assert NoteFits(w, w.state.value, w.drivers[ME].note); }
  }

  lemma CallsAreBounded(w: World)
    requires ReviewAuditRuns.Inv(w)
    ensures 0 <= w.reviewerCalls <= 1 && 0 <= w.auditorCalls <= 1
  {
    hide ValidReviewState;
  }
}
