/** The validator of a finished run's event chain, which review and completion rely on: what it accepts,
    and exactly which chains of the controller's own runs it accepts. */
module EngineerVerifierTerminal {
  import opened Common
  import opened RuntimeTypes
  import opened EngineerVerifierKernel
  import opened EngineerVerifierCommands
  import opened EngineerVerifierRuns
  import opened EngineerVerifierOutbox
  import opened EngineerVerifierCalls

  // ---------------------------------------------------------------- the validator

  predicate UniqueIds(log: seq<RunEvent>) {
    forall i, j :: 0 <= i < j < |log| ==> log[i].id != log[j].id
  }

  /** One run's stream: created first and only first, linked, ids never reused. */
  predicate ValidEventChain(events: seq<RunEvent>) {
    && events != [] && events[0].payload.RunCreated?
    && (forall i :: 0 < i < |events| ==> !events[i].payload.RunCreated?)
    && Linked(events) && UniqueIds(events)
  }

  predicate CreatedFor(e: RunEvent, plan: Plan) {
    e.payload.RunCreated? && e.payload.goal == plan.goal && plan.task in e.payload.tasks
  }

  function FirstPhaseEvent(events: seq<RunEvent>): (k: int)
    ensures 0 <= k <= |events|
    ensures k < |events| ==> events[k].payload.PhaseNote?
    ensures forall i :: 0 <= i < k ==> !events[i].payload.PhaseNote?
  {
    if events == [] || events[0].payload.PhaseNote? then 0 else 1 + FirstPhaseEvent(events[1..])
  }

  predicate ChainStart(first: Projection, s: EvState) {
    && first.from.Planned? && first.to.Engineering? && first.trigger.ClaimAccepted?
    && first.phaseRevision == 1 && first.attempt == 1
    && first.binding == s.binding && first.plan == s.plan
  }

  predicate ChainStep(prior: Projection, next: Projection) {
    && next.phaseRevision == prior.phaseRevision + 1
    && next.from == prior.to
    && prior.at <= next.at
    && next.attempt == prior.attempt + (if next.trigger.RetryClaimAccepted? then 1 else 0)
    && next.binding == prior.binding && next.plan == prior.plan
  }

  predicate ChainEnd(last: Projection, s: EvState) {
    && last.to.Reviewing?
    && last.phaseRevision == s.phaseRevision && last.attempt == s.attempt
    && last.state == s.digest && last.ledger == s.ledger && last.result == s.result
    && last.transcript == Transcript(s.verifier)
    && last.at == s.time
  }

  predicate PhaseRows(rows: seq<RunEvent>) {
    forall i :: 0 <= i < |rows| ==> rows[i].payload.PhaseNote? && ValidPhaseEvent(rows[i])
  }

  predicate ValidRows(rows: seq<RunEvent>, s: EvState) {
    && rows != [] && PhaseRows(rows)
    && ChainStart(rows[0].payload.projection, s)
    && (forall i :: 0 <= i < |rows| - 1 ==> ChainStep(rows[i].payload.projection, rows[i + 1].payload.projection))
    && ChainEnd(rows[|rows| - 1].payload.projection, s)
  }

  /** The rows from the first phase event to the terminal one; a stream that does not begin with this
      run's creation must begin with the phase events. */
  function ChainRows(prefix: seq<RunEvent>, plan: Plan): Option<seq<RunEvent>>
    requires prefix != []
  {
    if CreatedFor(prefix[0], plan) then
      if ValidEventChain(prefix) && FirstPhaseEvent(prefix) < |prefix| then Some(prefix[FirstPhaseEvent(prefix)..])
      else None
    else Some(prefix)
  }

  function TerminalChain(log: seq<RunEvent>, s: EvState): Option<seq<RunEvent>> {
    if !ValidState(s) || !s.phase.Reviewing? || s.pending.Some? || s.projected.None? then None
    else if !ReadableLog(log) || !UniqueIds(log) then None
    else
      var k := s.projected.value.sequence;
      if !(0 <= k < |log|) || log[k].id != s.projected.value.id then None
      else
        var rows := ChainRows(log[..k + 1], s.plan);
        if rows.Some? && ValidRows(rows.value, s) then Some(log) else None
  }

  // ---------------------------------------------------------------- what an accepted chain shows

  /** Attempts rise by one exactly at a retry claim. */
  predicate AttemptsRiseAtRetries(rows: seq<RunEvent>)
    requires PhaseRows(rows)
  {
    forall i :: 0 <= i < |rows| - 1 ==>
      rows[i + 1].payload.projection.attempt
      == rows[i].payload.projection.attempt
         + (if rows[i + 1].payload.projection.trigger.RetryClaimAccepted? then 1 else 0)
  }

  /** The rows at `start` are a linked phase path from Planned to Reviewing, with revisions 1..k and times
      that never go back, ending at the projected event. */
  predicate PhasePathAt(log: seq<RunEvent>, s: EvState, start: int) {
    && 0 <= start && 0 < s.phaseRevision && start + s.phaseRevision <= |log| && s.projected.Some?
    && var rows := log[start..start + s.phaseRevision];
       (&& Path(rows) && PhaseRows(rows) && AttemptsRiseAtRetries(rows) && Linked(log)
        && rows[|rows| - 1].payload.projection.to.Reviewing?
        && rows[|rows| - 1].id == s.projected.value.id)
  }

  /** Every log the validator accepts holds a phase path from Planned to Reviewing, attempts rising only at
      retry claims, contiguous in a linked log. */
  lemma AcceptedChainHoldsAPhasePath(log: seq<RunEvent>, s: EvState)
    requires TerminalChain(log, s).Some?
    ensures exists start :: PhasePathAt(log, s, start)
  {
    hide ValidState, ChainEnd, ChainStart, ChainStep, ValidPhaseEvent, LinkedAt, CreatedFor, ValidEventChain, UniqueIds;
    var k := s.projected.value.sequence;
    var prefix := log[..k + 1];
    var rows := ChainRows(prefix, s.plan).value;
    var start := if CreatedFor(prefix[0], s.plan) then FirstPhaseEvent(prefix) else 0;
    assert rows == prefix[start..] == log[start..k + 1];
    assert ValidRows(rows, s) && rows[|rows| - 1] == log[k];
    assert Linked(log) && log[k].id == s.projected.value.id;
    hide TerminalChain, ChainRows, FirstPhaseEvent, ReadableLog, Linked;
    RowsCount(rows, s);
    EndRevision(rows, s);
    RowsArePath(rows, s);
    assert rows == log[start..start + s.phaseRevision];
    assert PhaseRows(rows) by { ValidRowsArePhaseRows(rows, s); }
    hide Path, PhaseRows, AttemptsRiseAtRetries, ValidRows;
    assert PhasePathAt(log, s, start);
  }

  lemma EndRevision(rows: seq<RunEvent>, s: EvState)
    requires ValidRows(rows, s) && forall i :: 0 <= i < |rows| ==> rows[i].payload.projection.phaseRevision == i + 1
    ensures |rows| == s.phaseRevision && rows[|rows| - 1].payload.projection.to.Reviewing?
  {
  }

  lemma {:induction false} RevisionAt(rows: seq<RunEvent>, s: EvState, i: int)
    requires ValidRows(rows, s) && 0 <= i < |rows|
    ensures rows[i].payload.projection.phaseRevision == i + 1
    decreases i
  {
    if i > 0 {
      RevisionAt(rows, s, i - 1);
      assert ChainStep(rows[i - 1].payload.projection, rows[i - 1 + 1].payload.projection);
    }
  }

  lemma RowsCount(rows: seq<RunEvent>, s: EvState)
    requires ValidRows(rows, s)
    ensures forall i :: 0 <= i < |rows| ==> rows[i].payload.projection.phaseRevision == i + 1
  {
    forall i | 0 <= i < |rows| ensures rows[i].payload.projection.phaseRevision == i + 1 { RevisionAt(rows, s, i); }
  }

  lemma RowsArePath(rows: seq<RunEvent>, s: EvState)
    requires ValidRows(rows, s)
    ensures Path(rows) && AttemptsRiseAtRetries(rows)
  {
    RowsCount(rows, s);
    forall i | 0 <= i < |rows| ensures PathAt(rows, i) {
      if i > 0 { assert ChainStep(rows[i - 1].payload.projection, rows[i - 1 + 1].payload.projection); }
    }
    hide ValidPhaseEvent;
    forall i | 0 <= i < |rows| - 1
      ensures rows[i + 1].payload.projection.attempt
           == rows[i].payload.projection.attempt
              + (if rows[i + 1].payload.projection.trigger.RetryClaimAccepted? then 1 else 0)
    {
      assert ChainStep(rows[i].payload.projection, rows[i + 1].payload.projection);
    }
  }

  // ---------------------------------------------------------------- the controller's own chains

  /** A committed transition carries its plan, binding and attempt, and the log position after its
      predecessor's. */
  predicate RowAt(committed: seq<RunEvent>, plan: Plan, i: int)
    requires 0 <= i < |committed|
  {
    && committed[i].payload.PhaseNote?
    && var p := committed[i].payload.projection;
       (&& p.plan == plan && p.binding == Binding(plan.invocation, p.attempt)
        && committed[i].sequence == committed[0].sequence + i
        && (i == 0 ==> p.attempt == 1 && p.trigger.ClaimAccepted? && p.to.Engineering?)
        && (i > 0 ==>
              && committed[i - 1].payload.PhaseNote?
              && p.attempt == committed[i - 1].payload.projection.attempt
                              + (if p.trigger.RetryClaimAccepted? then 1 else 0)))
  }

  /** A terminal state is still the one its last event described, except for its time. */
  predicate DescribedBy(s: EvState, p: Projection) {
    p.state == s.digest && p.ledger == s.ledger && p.result == s.result && p.transcript == Transcript(s.verifier)
  }

  predicate RowsReach(committed: seq<RunEvent>, s: EvState) {
    && committed != []
    && (forall i :: 0 <= i < |committed| ==> RowAt(committed, s.plan, i))
    && committed[|committed| - 1].payload.PhaseNote?
    && var p := committed[|committed| - 1].payload.projection;
       (&& p.attempt == s.attempt && s.binding == Binding(s.plan.invocation, s.attempt)
        && (Terminal(s.phase) ==> DescribedBy(s, p)))
  }

  predicate RowsInv(w: World) {
    UniqueIds(w.log) && (w.state.Some? ==> RowsReach(w.committed, w.state.value))
  }

  lemma RowsAppend(committed: seq<RunEvent>, plan: Plan, e: RunEvent)
    requires forall i :: 0 <= i < |committed| ==> RowAt(committed, plan, i)
    requires e.payload.PhaseNote?
    requires var p := e.payload.projection;
             && p.plan == plan && p.binding == Binding(plan.invocation, p.attempt)
             && if committed == [] then p.attempt == 1 && p.trigger.ClaimAccepted? && p.to.Engineering?
                else
                  && committed[|committed| - 1].payload.PhaseNote?
                  && e.sequence == committed[|committed| - 1].sequence + 1
                  && p.attempt == committed[|committed| - 1].payload.projection.attempt
                                  + (if p.trigger.RetryClaimAccepted? then 1 else 0)
    ensures forall i :: 0 <= i < |committed| + 1 ==> RowAt(committed + [e], plan, i)
  {
    var after := committed + [e];
    forall i | 0 <= i < |after| ensures RowAt(after, plan, i) {
      if i < |committed| { assert RowAt(committed, plan, i); }
      if 0 < i { assert RowAt(committed, plan, i - 1) && after[i - 1] == committed[i - 1]; }
    }
  }

  lemma PendingDescribes(from: Phase, n: EvState)
    requires ValidPendingTransition(from, n)
    ensures n.pending.value.payload.PhaseNote?
    ensures var p := n.pending.value.payload.projection;
            p.plan == n.plan && p.binding == n.binding && p.attempt == n.attempt && DescribedBy(n, p)
  {
  }

  /** A write that asks for a transition: the attempt rises exactly when a retry is claimed. */
  lemma TransitionAttempt(s: EvState, cmd: Command)
    requires Enabled(s, cmd) && s.pending.None? && Next(s, cmd).pending.Some?
    requires s.binding == Binding(s.plan.invocation, s.attempt)
    ensures var n := Next(s, cmd);
            && n.plan == s.plan && n.binding == Binding(n.plan.invocation, n.attempt)
            && n.pending.value.payload.PhaseNote?
            && n.attempt
               == s.attempt + (if n.pending.value.payload.projection.trigger.RetryClaimAccepted? then 1 else 0)
  {
  }

  /** What a transition's event says about plan, binding and attempt. */
  lemma AdvanceDescribes(s: EvState, cmd: Command)
    requires Accepted(s, cmd) && MoveOf(s, Next(s, cmd)).Advance?
    requires s.binding == Binding(s.plan.invocation, s.attempt)
    ensures var n := Next(s, cmd);
            && n.plan == s.plan && n.binding == Binding(n.plan.invocation, n.attempt)
            && n.pending.Some? && n.pending.value.payload.PhaseNote?
            && var p := n.pending.value.payload.projection;
               (&& p.plan == n.plan && p.binding == n.binding && p.attempt == n.attempt
                && n.attempt == s.attempt + (if p.trigger.RetryClaimAccepted? then 1 else 0)
                && DescribedBy(n, p))
  {
    hide Next, Enabled, ValidSuccessor, ValidPendingTransition, DescribedBy;
    SuccessorMoves(s, Next(s, cmd));
    PendingDescribes(s.phase, Next(s, cmd));
    AdvanceAttaches(s, cmd);
    TransitionAttempt(s, cmd);
  }

  /** Without a transition the described parts of a terminal state do not change. */
  lemma StayDescribes(s: EvState, cmd: Command)
    requires Accepted(s, cmd) && !MoveOf(s, Next(s, cmd)).Advance?
    ensures var n := Next(s, cmd);
            && n.plan == s.plan && n.binding == s.binding && n.attempt == s.attempt && n.phase == s.phase
            && (Terminal(s.phase) ==>
                  n.digest == s.digest && n.ledger == s.ledger && n.result == s.result && n.verifier == s.verifier)
  {
    SuccessorMoves(s, Next(s, cmd));
  }

  lemma CommitKeepsRows(w: World, d: DriverId, cmd: Command)
    requires OutboxInv(w) && RowsInv(w) && CommitApplies(w, d, cmd)
    ensures RowsInv(CommitStep(w, d, cmd))
  {
    hide CommitApplies, CommitStep, Accepted, Next, ValidSuccessor, Enabled, RowAt, Path, ReadableRun, UniqueIds;
    CommitIsAWrite(w, d, cmd);
    var s, n := w.state.value, Next(w.state.value, cmd);
    if MoveOf(s, n).Advance? {
      AdvanceAttaches(s, cmd);
      AdvanceDescribes(s, cmd);
      RowsAppend(w.committed, s.plan, n.pending.value);
    } else {
      StayDescribes(s, cmd);
      StayAddsNothing(s, n);
      assert w.committed + [] == w.committed;
    }
  }

  lemma StayAddsNothing(s: EvState, n: EvState)
    requires ValidSuccessor(s, n) && !MoveOf(s, n).Advance?
    ensures NewEvents(s, n) == []
  {
    SuccessorMoves(s, n);
  }

  lemma InstallKeepsRows(w: World, d: DriverId, plan: Plan, cursor: Option<Cursor>, now: Time)
    requires OutboxInv(w) && RowsInv(w) && InstallApplies(w, d, plan, cursor, now)
    ensures RowsInv(InstallStep(w, d, plan, cursor, now))
  {
    hide ValidInitialInstall, Claimed, UniqueIds, Path, ReadableRun;
    var n := Claimed(plan, w.drivers[d].note.root, cursor, now);
    ClaimDescribes(plan, w.drivers[d].note.root, cursor, now);
    RowsAppend([], plan, n.pending.value);
    assert [] + [n.pending.value] == [n.pending.value];
  }

  lemma ClaimDescribes(plan: Plan, root: Lease, cursor: Option<Cursor>, now: Time)
    requires ValidInitialInstall(Claimed(plan, root, cursor, now))
    ensures var n := Claimed(plan, root, cursor, now);
            && n.plan == plan && n.attempt == 1 && n.phase.Engineering? && n.binding == Binding(plan.invocation, 1)
            && n.pending.Some? && n.pending.value.payload.PhaseNote?
            && var p := n.pending.value.payload.projection;
               (p.plan == plan && p.binding == n.binding && p.attempt == 1
                && p.trigger.ClaimAccepted? && p.to.Engineering?)
  {
  }

  lemma UniqueIdsAppend(log: seq<RunEvent>, e: RunEvent)
    requires UniqueIds(log) && !Mentions(log, e.id)
    ensures UniqueIds(log + [e])
  {
  }

  lemma ActionKeepsRows(w: World, a: Action)
    requires OutboxInv(w) && RowsInv(w)
    ensures RowsInv(Apply(w, a))
  {
    hide CommitApplies, InstallApplies, FrozenMatches, ReadableLog, OutboxInv, RowsReach, UniqueIds;
    match a
    case Install(d, plan, cursor, now) =>
      if InstallApplies(w, d, plan, cursor, now) { InstallKeepsRows(w, d, plan, cursor, now); }
    case Commit(d, cmd) => if CommitApplies(w, d, cmd) { CommitKeepsRows(w, d, cmd); }
    case Confirm(d) =>
      if HoldsPending(w, d) && !Mentions(w.log, w.drivers[d].state.value.pending.value.id) {
        UniqueIdsAppend(w.log, w.drivers[d].state.value.pending.value);
      }
    case AppendOther(e) => if !Mentions(w.log, e.id) { UniqueIdsAppend(w.log, e); }
    case _ => QuietSteps(w, a);
  }

  lemma {:induction false} EveryRunKeepsRows(base: seq<RunEvent>, actions: seq<Action>)
    requires ReadableRun(base) && PhaseEvents(base) == [] && UniqueIds(base)
    ensures RowsInv(Run(Start(base), actions))
    decreases |actions|
  {
    hide Apply, OutboxInv;
    if actions != [] {
      var front := actions[..|actions| - 1];
      EveryRunKeepsRows(base, front);
      EveryRunKeepsOutbox(base, front);
      ActionKeepsRows(Run(Start(base), front), actions[|actions| - 1]);
    }
  }

  // ---------------------------------------------------------------- which of them the validator accepts

  /** The part of the log before the first phase event: empty, or begun by this run's creation. */
  predicate GoodHead(head: seq<RunEvent>, plan: Plan) {
    || head == []
    || (CreatedFor(head[0], plan) && forall i :: 0 < i < |head| ==> !head[i].payload.RunCreated?)
  }

  lemma CommittedIsInPlace(w: World, i: int)
    requires OutboxInv(w) && RowsInv(w) && w.state.Some? && PhaseEvents(w.log) == w.committed
    requires 0 <= i < |w.committed|
    ensures var at := w.committed[0].sequence + i; 0 <= at < |w.log| && w.log[at] == w.committed[i]
  {
    PhaseEventsAreInTheLog(w.log, w.committed[i]);
    var j :| 0 <= j < |w.log| && w.log[j] == w.committed[i];
    assert LinkedAt(w.log, j);
    assert RowAt(w.committed, w.state.value.plan, i);
  }

  lemma BlockIsInPlace(w: World)
    requires OutboxInv(w) && RowsInv(w) && w.state.Some? && PhaseEvents(w.log) == w.committed
    ensures var start := w.committed[0].sequence;
            0 <= start && start + |w.committed| <= |w.log| && w.log[start..start + |w.committed|] == w.committed
  {
    var start := w.committed[0].sequence;
    forall i | 0 <= i < |w.committed|
      ensures 0 <= start + i < |w.log| && w.log[start + i] == w.committed[i]
    {
      CommittedIsInPlace(w, i);
    }
    hide OutboxInv, RowsInv, PhaseEvents;
    assert w.committed[|w.committed| - 1] == w.log[start + |w.committed| - 1];
  }

  /** A fully delivered log holds the committed transitions as one block, at its first phase event. */
  lemma DeliveredBlock(w: World)
    requires OutboxInv(w) && RowsInv(w) && w.state.Some? && PhaseEvents(w.log) == w.committed
    ensures var k := FirstPhaseEvent(w.log);
            && k + |w.committed| <= |w.log| && w.log[k..k + |w.committed|] == w.committed
            && w.committed[0].sequence == k
  {
    BlockIsInPlace(w);
    var start := w.committed[0].sequence;
    var k := FirstPhaseEvent(w.log);
    assert w.log[start] == w.log[start..start + |w.committed|][0] == w.committed[0];
    assert RowAt(w.committed, w.state.value.plan, 0);
    assert k <= start;
    PhaseEventsAreInTheLog(w.log, w.log[k]);
    var j :| 0 <= j < |w.committed| && w.committed[j] == w.log[k];
    assert RowAt(w.committed, w.state.value.plan, j);
    assert LinkedAt(w.log, k);
  }

  /** All rows of a run keep the first binding exactly when there was no retry. */
  lemma {:induction false} AttemptsBelow(committed: seq<RunEvent>, plan: Plan, i: int)
    requires forall j :: 0 <= j < |committed| ==> RowAt(committed, plan, j)
    requires 0 <= i < |committed|
    ensures committed[0].payload.PhaseNote? && committed[i].payload.PhaseNote?
    ensures 1 <= committed[i].payload.projection.attempt
    ensures i < |committed| - 1 && committed[i + 1].payload.PhaseNote? ==>
              committed[i].payload.projection.attempt <= committed[i + 1].payload.projection.attempt
    decreases i
  {
    assert RowAt(committed, plan, i) && RowAt(committed, plan, 0);
    if i > 0 { AttemptsBelow(committed, plan, i - 1); }
    if i < |committed| - 1 { assert RowAt(committed, plan, i + 1); }
  }

  lemma {:induction false} AttemptsBelowLast(committed: seq<RunEvent>, plan: Plan, i: int)
    requires forall j :: 0 <= j < |committed| ==> RowAt(committed, plan, j)
    requires 0 <= i < |committed|
    ensures committed[i].payload.PhaseNote? && committed[|committed| - 1].payload.PhaseNote?
    ensures committed[i].payload.projection.attempt <= committed[|committed| - 1].payload.projection.attempt
    decreases |committed| - i
  {
    AttemptsBelow(committed, plan, i);
    AttemptsBelow(committed, plan, |committed| - 1);
    if i < |committed| - 1 { AttemptsBelowLast(committed, plan, i + 1); }
  }

  /** The committed rows pass the row checks exactly when the run never retried and the state still has
      the time of its last transition. */
  lemma CommittedRowsAreValidIff(w: World)
    requires OutboxInv(w) && RowsInv(w) && w.state.Some? && w.state.value.phase.Reviewing?
    ensures w.committed != [] && w.committed[|w.committed| - 1].payload.PhaseNote?
    ensures ValidRows(w.committed, w.state.value)
        <==> w.state.value.attempt == 1 && w.committed[|w.committed| - 1].at == w.state.value.time
  {
    var s := w.state.value;
    var committed := w.committed;
    assert RowAt(committed, s.plan, 0) && PathAt(committed, 0) && PathAt(committed, |committed| - 1);
    if s.attempt == 1 && committed[|committed| - 1].at == s.time {
      forall i | 0 <= i < |committed| ensures committed[i].payload.PhaseNote? && ValidPhaseEvent(committed[i]) {
        assert PathAt(committed, i);
      }
      forall i | 0 <= i < |committed| - 1
        ensures ChainStep(committed[i].payload.projection, committed[i + 1].payload.projection)
      {
        CommittedStep(w, i);
      }
    }
  }

  lemma CommittedStep(w: World, i: int)
    requires OutboxInv(w) && RowsInv(w) && w.state.Some? && w.state.value.attempt == 1
    requires 0 <= i < |w.committed| - 1
    ensures w.committed[i].payload.PhaseNote? && w.committed[i + 1].payload.PhaseNote?
    ensures ChainStep(w.committed[i].payload.projection, w.committed[i + 1].payload.projection)
  {
    var plan := w.state.value.plan;
    assert PathAt(w.committed, i) && PathAt(w.committed, i + 1);
    assert RowAt(w.committed, plan, i) && RowAt(w.committed, plan, i + 1);
    AttemptsBelow(w.committed, plan, i);
    AttemptsBelowLast(w.committed, plan, i);
    AttemptsBelow(w.committed, plan, i + 1);
    AttemptsBelowLast(w.committed, plan, i + 1);
  }

  /** A chain made of a head without phase events and a block of them: its rows are the block exactly when
      the head is good. */
  lemma RowsOfHeadAndBlock(head: seq<RunEvent>, block: seq<RunEvent>, plan: Plan)
    requires Linked(head + block) && UniqueIds(head + block) && block != []
    requires forall i :: 0 <= i < |block| ==> block[i].payload.PhaseNote?
    requires forall i :: 0 <= i < |head| ==> !head[i].payload.PhaseNote?
    ensures var rows := ChainRows(head + block, plan);
            if GoodHead(head, plan) then rows == Some(block) else rows.Some? ==> !PhaseRows(rows.value)
  {
    hide FirstPhaseEvent, Linked, UniqueIds;
    var prefix := head + block;
    assert forall i :: 0 <= i < |head| ==> prefix[i] == head[i];
    assert forall i :: |head| <= i < |prefix| ==> prefix[i] == block[i - |head|];
    FirstAfterHead(head, block);
    ConcatDrop(head, block);
    if head == [] {
      assert prefix == block;
    } else if CreatedFor(prefix[0], plan) {
      HeadDecidesTheChain(head, prefix);
    }
  }

  lemma FirstAfterHead(head: seq<RunEvent>, block: seq<RunEvent>)
    requires block != [] && block[0].payload.PhaseNote?
    requires forall i :: 0 <= i < |head| ==> !head[i].payload.PhaseNote?
    ensures FirstPhaseEvent(head + block) == |head|
  {
    assert (head + block)[|head|] == block[0];
    assert forall i :: 0 <= i < |head| ==> (head + block)[i] == head[i];
  }

  /** The chain rows of a delivered log are the committed transitions exactly when the head is good. */
  lemma ChainRowsOfDelivered(w: World, plan: Plan)
    requires Linked(w.log) && UniqueIds(w.log) && w.committed != []
    requires var k := FirstPhaseEvent(w.log);
             k + |w.committed| <= |w.log| && w.log[k..k + |w.committed|] == w.committed
    requires forall i :: 0 <= i < |w.committed| ==> w.committed[i].payload.PhaseNote?
    ensures var k := FirstPhaseEvent(w.log);
            var rows := ChainRows(w.log[..k + |w.committed|], plan);
            if GoodHead(w.log[..k], plan) then rows == Some(w.committed)
            else rows.Some? ==> !PhaseRows(rows.value)
  {
    hide Linked, UniqueIds, ChainRows, GoodHead, PhaseRows;
    var k := FirstPhaseEvent(w.log);
    var prefix := w.log[..k + |w.committed|];
    PrefixIsLinked(w.log, |prefix|);
    PrefixIsUnique(w.log, |prefix|);
    assert prefix == w.log[..k] + w.committed;
    RowsOfHeadAndBlock(w.log[..k], w.committed, plan);
  }

  lemma PrefixIsUnique(log: seq<RunEvent>, n: int)
    requires UniqueIds(log) && 0 <= n <= |log|
    ensures UniqueIds(log[..n])
  {
  }

  lemma HeadDecidesTheChain(head: seq<RunEvent>, prefix: seq<RunEvent>)
    requires head != [] && head <= prefix && head[0].payload.RunCreated?
    requires Linked(prefix) && UniqueIds(prefix)
    requires forall i :: |head| <= i < |prefix| ==> prefix[i].payload.PhaseNote?
    ensures ValidEventChain(prefix) <==> forall i :: 0 < i < |head| ==> !head[i].payload.RunCreated?
  {
    assert forall i :: 0 <= i < |head| ==> head[i] == prefix[i];
  }

  lemma PrefixIsLinked(log: seq<RunEvent>, n: int)
    requires Linked(log) && 0 <= n <= |log|
    ensures Linked(log[..n])
  {
    forall i | 0 <= i < n ensures LinkedAt(log[..n], i) {
      assert LinkedAt(log, i);
      assert log[..n][..i] == log[..i];
    }
  }

  /** Which of the controller's own finished runs the validator accepts: those that never retried (every
      attempt has its own binding), whose state still has the time of its last transition (no recovery was
      claimed after it), and whose log before the first phase event is empty or begins with this run's
      creation. Events appended after the terminal one make no difference. */
  lemma FinishedRunIsAcceptedIff(base: seq<RunEvent>, actions: seq<Action>)
    requires ReadableRun(base) && PhaseEvents(base) == [] && UniqueIds(base)
    requires var w := Run(Start(base), actions);
             w.state.Some? && w.state.value.phase.Reviewing? && w.state.value.pending.None?
    ensures var w := Run(Start(base), actions);
            w.committed != []
            && (TerminalChain(w.log, w.state.value).Some?
                <==> && w.state.value.attempt == 1
                     && w.committed[|w.committed| - 1].at == w.state.value.time
                     && GoodHead(w.log[..FirstPhaseEvent(w.log)], w.state.value.plan))
  {
    hide Run;
    EveryRunKeepsOutbox(base, actions);
    EveryRunKeepsRows(base, actions);
    EveryRunKeepsStored(base, actions);
    var w := Run(Start(base), actions);
    DeliveredRunIsAcceptedIff(w);
  }

  /** What the validator looks at, in a delivered world. */
  lemma DeliveredFacts(w: World)
    requires OutboxInv(w) && RowsInv(w) && w.state.Some? && w.state.value.pending.None?
    ensures var k := FirstPhaseEvent(w.log);
            && w.committed != [] && k + |w.committed| <= |w.log|
            && w.log[k..k + |w.committed|] == w.committed
            && w.log[k + |w.committed| - 1] == w.committed[|w.committed| - 1]
            && w.state.value.projected == Some(Cursor(k + |w.committed| - 1, w.committed[|w.committed| - 1].id))
    ensures forall i :: 0 <= i < |w.committed| ==> w.committed[i].payload.PhaseNote?
    ensures ReadableLog(w.log) && UniqueIds(w.log)
  {
    hide Linked, ReadableLog, ReadableRun, PhaseEvents;
    DeliveredBlock(w);
    ReadableRunIsReadable(w.log);
    forall i | 0 <= i < |w.committed| ensures w.committed[i].payload.PhaseNote? { assert PathAt(w.committed, i); }
    assert RowAt(w.committed, w.state.value.plan, |w.committed| - 1);
    var k := FirstPhaseEvent(w.log);
    hide PathAt;
    assert w.log[k..k + |w.committed|][|w.committed| - 1] == w.log[k + |w.committed| - 1];
  }

  /** On a readable log the validator's answer is that of the rows up to the projected event. */
  lemma RowsDecideTheChain(log: seq<RunEvent>, s: EvState, k: int)
    requires ValidState(s) && s.phase.Reviewing? && s.pending.None? && ReadableLog(log) && UniqueIds(log)
    requires 0 <= k < |log| && s.projected == Some(Cursor(k, log[k].id))
    ensures TerminalChain(log, s).Some?
        <==> var rows := ChainRows(log[..k + 1], s.plan); rows.Some? && ValidRows(rows.value, s)
  {
    hide ValidState, ReadableLog, UniqueIds, ChainRows, ValidRows;
  }

  lemma ValidRowsArePhaseRows(rows: seq<RunEvent>, s: EvState)
    ensures ValidRows(rows, s) ==> PhaseRows(rows)
  {
  }

  lemma DeliveredRunIsAcceptedIff(w: World)
    requires OutboxInv(w) && RowsInv(w) && w.state.Some? && ValidState(w.state.value)
    requires w.state.value.phase.Reviewing? && w.state.value.pending.None?
    ensures w.committed != []
    ensures TerminalChain(w.log, w.state.value).Some?
        <==> && w.state.value.attempt == 1
             && w.committed[|w.committed| - 1].at == w.state.value.time
             && GoodHead(w.log[..FirstPhaseEvent(w.log)], w.state.value.plan)
  {
    hide *;
    DeliveredFacts(w);
    CommittedRowsAreValidIff(w);
    ReadableIsLinked(w.log);
    ChainRowsOfDelivered(w, w.state.value.plan);
    var k := FirstPhaseEvent(w.log);
    assert k + |w.committed| - 1 + 1 == k + |w.committed|;
    RowsDecideTheChain(w.log, w.state.value, k + |w.committed| - 1);
    var rows := ChainRows(w.log[..k + |w.committed|], w.state.value.plan);
    if rows.Some? { ValidRowsArePhaseRows(rows.value, w.state.value); }
  }

  lemma ReadableIsLinked(log: seq<RunEvent>)
    requires ReadableLog(log)
    ensures Linked(log)
  {
    hide Linked;
  }

  lemma ReadableRunIsReadable(log: seq<RunEvent>)
    requires ReadableRun(log)
    ensures ReadableLog(log)
  {
    hide ValidPhaseEvent, Linked;
  }

  // ---------------------------------------------------------------- recovering a finished run

  lemma {:induction false} TimeNeverGoesBack(w: World, actions: seq<Action>)
    requires w.state.Some?
    ensures Run(w, actions).state.Some? && w.state.value.time <= Run(w, actions).state.value.time
    decreases |actions|
  {
    hide Apply;
    if actions != [] {
      var front := actions[..|actions| - 1];
      TimeNeverGoesBack(w, front);
      ActionKeepsTime(Run(w, front), actions[|actions| - 1]);
    }
  }

  lemma ActionKeepsTime(w: World, a: Action)
    requires w.state.Some?
    ensures Apply(w, a).state.Some? && w.state.value.time <= Apply(w, a).state.value.time
  {
    hide CommitApplies, InstallApplies, ConfirmStep, Next;
    match a
    case Install(d, plan, cursor, now) => NoSecondInstall(w, d, plan, cursor, now);
    case Commit(d, cmd) =>
      if CommitApplies(w, d, cmd) {
        CommitIsAWrite(w, d, cmd);
        hide CommitStep;
        SuccessorMoves(w.state.value, Next(w.state.value, cmd));
      }
    case _ => OtherStepsKeepState(w, a);
  }

  lemma NoSecondInstall(w: World, d: DriverId, plan: Plan, cursor: Option<Cursor>, now: Time)
    requires w.state.Some?
    ensures InstallStep(w, d, plan, cursor, now) == w
  {
    hide ValidInitialInstall, Claimed;
  }

  predicate Finished(w: World) {
    w.state.Some? && Terminal(w.state.value.phase) && w.state.value.pending.None?
  }

  lemma CommitKeepsFinished(w: World, d: DriverId, cmd: Command)
    requires Finished(w) && CommitApplies(w, d, cmd)
    ensures Finished(CommitStep(w, d, cmd)) && CommitStep(w, d, cmd).state.value.phase == w.state.value.phase
    ensures CommitStep(w, d, cmd).committed == w.committed
  {
    hide CommitApplies, CommitStep, Accepted, Next, ValidSuccessor, Enabled;
    CommitIsAWrite(w, d, cmd);
    SuccessorMoves(w.state.value, Next(w.state.value, cmd));
    assert w.committed + [] == w.committed;
  }

  /** A finished run keeps its phase and its transitions. */
  lemma ActionKeepsFinished(w: World, a: Action)
    requires Finished(w)
    ensures Finished(Apply(w, a)) && Apply(w, a).state.value.phase == w.state.value.phase
    ensures Apply(w, a).committed == w.committed
  {
    match a
    case Install(d, plan, cursor, now) => NoSecondInstall(w, d, plan, cursor, now); hide InstallStep;
    case Commit(d, cmd) =>
      if CommitApplies(w, d, cmd) { CommitKeepsFinished(w, d, cmd); }
      hide CommitApplies;
    case _ => OtherStepsKeepState(w, a); hide Apply;
  }

  lemma {:induction false} FinishedRunsStayFinished(w: World, actions: seq<Action>)
    requires Finished(w)
    ensures Finished(Run(w, actions)) && Run(w, actions).state.value.phase == w.state.value.phase
    ensures Run(w, actions).committed == w.committed
    decreases |actions|
  {
    hide Apply;
    if actions != [] {
      var front := actions[..|actions| - 1];
      FinishedRunsStayFinished(w, front);
      ActionKeepsFinished(Run(w, front), actions[|actions| - 1]);
    }
  }

  /** A crash between Reviewing and the removal of the workspace makes the next resume claim a recovery,
      which moves the state's time past its last transition: from then on the chain is refused for good. */
  lemma RecoveringAFinishedRunBreaksItsChain(base: seq<RunEvent>, first: seq<Action>, later: seq<Action>)
    requires ReadableRun(base) && PhaseEvents(base) == [] && UniqueIds(base)
    requires var w := Run(Start(base), first);
             && w.state.Some? && w.state.value.phase.Reviewing? && w.state.value.pending.None?
             && w.committed != [] && w.committed[|w.committed| - 1].at < w.state.value.time
    ensures var v := Run(Start(base), first + later);
            v.state.Some? && TerminalChain(v.log, v.state.value).None?
  {
    hide Run, TerminalChain, ReadableRun, PhaseEvents, UniqueIds, GoodHead;
    var w := Run(Start(base), first);
    RunsCompose(Start(base), first, later);
    FinishedRunsStayFinished(w, later);
    TimeNeverGoesBack(w, later);
    FinishedRunIsAcceptedIff(base, first + later);
  }
}
