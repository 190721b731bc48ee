/** The outbox of the Engineer-to-Verifier controller: a transition and its event are one write, the
    event is appended later, possibly by another driver after a crash. Over every run the log holds
    each committed transition exactly once, in order, linked. */
module EngineerVerifierOutbox {
  import opened Common
  import opened RuntimeTypes
  import opened EngineerVerifierKernel
  import opened EngineerVerifierCommands
  import opened EngineerVerifierRuns

  // ---------------------------------------------------------------- what is kept

  /** A driver's snapshot is a state the cell once held, and the newest snapshots are the present state. */
  predicate Snapshots(w: World) {
    forall d :: d in w.drivers ==>
      && w.drivers[d].revision <= w.revision
      && (w.drivers[d].revision == w.revision ==> w.drivers[d].state == w.state)
  }

  predicate ReadableRun(log: seq<RunEvent>) {
    && Linked(log)
    && forall i :: 0 <= i < |log| ==>
         ValidPhaseEvent(log[i]) && (log[i].payload.PhaseNote? <==> log[i].id.PhaseEventId?)
  }

  /** The i-th committed transition: numbered i + 1, starting where its predecessor ended. */
  predicate PathAt(committed: seq<RunEvent>, i: int)
    requires 0 <= i < |committed|
  {
    && committed[i].payload.PhaseNote?
    && ValidPhaseEvent(committed[i])
    && committed[i].payload.projection.phaseRevision == i + 1
    && (i == 0 ==> committed[i].payload.projection.from.Planned?)
    && (i > 0 ==>
          && committed[i - 1].payload.PhaseNote?
          && committed[i].payload.projection.from == committed[i - 1].payload.projection.to
          && committed[i - 1].at <= committed[i].at)
  }

  /** A phase path: allowed transitions from Planned, revisions 1, 2, ..., times never going back. */
  predicate Path(committed: seq<RunEvent>) {
    forall i :: 0 <= i < |committed| ==> PathAt(committed, i)
  }

  /** The pending event continues from the cursor stored beside it. */
  predicate PendingLinks(s: EvState)
    requires s.pending.Some?
  {
    && s.pending.value.sequence == (if s.projected.None? then 0 else s.projected.value.sequence + 1)
    && s.pending.value.previous == (if s.projected.None? then None else Some(s.projected.value.id))
  }

  predicate LeadsTo(last: RunEvent, s: EvState) {
    && last.payload.PhaseNote?
    && last.payload.projection.to == s.phase
    && last.at <= s.time
    && (s.pending.Some? ==> s.pending.value == last && PendingLinks(s))
    && (s.pending.None? ==> s.projected == Some(Cursor(last.sequence, last.id)))
  }

  /** The committed transitions number the state's phase revision, and the last one leads to it. */
  predicate Reaches(committed: seq<RunEvent>, s: EvState) {
    committed != [] && |committed| == s.phaseRevision && LeadsTo(committed[|committed| - 1], s)
  }

  function AllButLast(committed: seq<RunEvent>): seq<RunEvent> {
    if committed == [] then [] else committed[..|committed| - 1]
  }

  /** The log's phase events are the committed transitions, except a last one still pending. */
  predicate Delivered(w: World) {
    match w.state
    case None => w.committed == [] && PhaseEvents(w.log) == []
    case Some(s) =>
      && Reaches(w.committed, s)
      && (|| PhaseEvents(w.log) == w.committed
          || (s.pending.Some? && PhaseEvents(w.log) == AllButLast(w.committed)))
  }

  /** Whoever confirmed an event, or still holds it after the cell moved on, finds it in the log. */
  predicate Witnesses(w: World) {
    forall d :: d in w.drivers && HoldsPending(w, d) && (w.drivers[d].note.Confirmed? || w.drivers[d].revision < w.revision)
      ==> Mentions(w.log, w.drivers[d].state.value.pending.value.id)
  }

  predicate OutboxInv(w: World) {
    && Snapshots(w)
    && ReadableRun(w.log)
    && Path(w.committed)
    && Delivered(w)
    && Witnesses(w)
  }

  // ---------------------------------------------------------------- what one write may do to the outbox

  datatype Move = Clear | Stay | Advance

  ghost function MoveOf(s: EvState, n: EvState): Move {
    if s.pending.Some? then Clear else if s.phase == n.phase then Stay else Advance
  }

  /** The kernel's rules leave three kinds of write. */
  lemma SuccessorMoves(s: EvState, n: EvState)
    requires ValidSuccessor(s, n)
    ensures s.time <= n.time
    ensures MoveOf(s, n).Clear? ==> n == Cleared(s)
    ensures MoveOf(s, n).Stay? ==>
              n.phase == s.phase && n.phaseRevision == s.phaseRevision && n.pending.None? && n.projected == s.projected
    ensures MoveOf(s, n).Advance? ==>
              && !Terminal(s.phase) && n.phaseRevision == s.phaseRevision + 1
              && ValidPendingTransition(s.phase, n)
    ensures !MoveOf(s, n).Clear? ==> s.pending.None?
  {
  }

  lemma PendingTransitionIsAPhaseEvent(from: Phase, n: EvState)
    requires ValidPendingTransition(from, n)
    ensures var e := n.pending.value;
            && e.payload.PhaseNote? && ValidPhaseEvent(e) && e.id.PhaseEventId?
            && e.payload.projection.from == from && e.payload.projection.to == n.phase
            && e.payload.projection.phaseRevision == n.phaseRevision == e.id.phaseRevision
            && e.at == n.time
  {
  }

  /** An event id carries its revision, so a log whose phase events are numbered 1..k mentions no later one. */
  lemma {:induction false} NumberedLogMentions(log: seq<RunEvent>, committed: seq<RunEvent>, id: EventId)
    requires ReadableRun(log) && Path(committed) && PhaseEvents(log) == committed
    requires id.PhaseEventId? && Mentions(log, id)
    ensures 1 <= id.phaseRevision <= |committed|
    ensures committed[id.phaseRevision - 1].id == id
    ensures committed[id.phaseRevision - 1] in log
  {
    var i :| 0 <= i < |log| && log[i].id == id;
    PhaseEventsAreInTheLog(log, log[i]);
    var k :| 0 <= k < |committed| && committed[k] == log[i];
    assert PathAt(committed, k);
  }

  lemma PathPrefix(committed: seq<RunEvent>)
    requires Path(committed)
    ensures Path(AllButLast(committed))
  {
    var front := AllButLast(committed);
    forall i | 0 <= i < |front| ensures PathAt(front, i) { assert PathAt(committed, i); }
  }

  lemma PathExtends(committed: seq<RunEvent>, e: RunEvent)
    requires Path(committed) && e.payload.PhaseNote? && ValidPhaseEvent(e)
    requires e.payload.projection.phaseRevision == |committed| + 1
    requires committed == [] ==> e.payload.projection.from.Planned?
    requires committed != [] ==>
               && committed[|committed| - 1].payload.PhaseNote?
               && e.payload.projection.from == committed[|committed| - 1].payload.projection.to
               && committed[|committed| - 1].at <= e.at
    ensures Path(committed + [e])
  {
    var after := committed + [e];
    forall i | 0 <= i < |after| ensures PathAt(after, i) {
      if i < |committed| { assert PathAt(committed, i); }
      if 0 < i { assert after[i - 1] == committed[i - 1]; }
    }
  }

  /** A pending event is in the log exactly when the log already has every committed transition. */
  lemma PendingIsInTheLogIffDelivered(w: World)
    requires OutboxInv(w) && w.state.Some? && w.state.value.pending.Some?
    ensures Mentions(w.log, w.state.value.pending.value.id) <==> PhaseEvents(w.log) == w.committed
    ensures PhaseEvents(w.log) == w.committed ==> w.state.value.pending.value in w.log
  {
    var e := w.state.value.pending.value;
    assert PathAt(w.committed, |w.committed| - 1);
    if PhaseEvents(w.log) == w.committed {
      PhaseEventsAreInTheLog(w.log, e);
      var i :| 0 <= i < |w.log| && w.log[i] == e;
      assert w.log[i].id == e.id;
    } else if Mentions(w.log, e.id) {
      PathPrefix(w.committed);
      NumberedLogMentions(w.log, AllButLast(w.committed), e.id);
    }
  }

  // ---------------------------------------------------------------- every action keeps it

  /** The transition writes are the only ones that leave an event pending, and they link it to the cursor. */
  lemma AdvanceAttaches(s: EvState, cmd: Command)
    requires Accepted(s, cmd) && MoveOf(s, Next(s, cmd)).Advance?
    ensures Next(s, cmd).pending.Some? && PendingLinks(Next(s, cmd)) && Next(s, cmd).projected == s.projected
  {
    SuccessorMoves(s, Next(s, cmd));
  }

  lemma ClaimAttaches(plan: Plan, root: Lease, cursor: Option<Cursor>, now: Time)
    requires ValidInitialInstall(Claimed(plan, root, cursor, now))
    ensures var n := Claimed(plan, root, cursor, now);
            && n.phase.Engineering? && n.phaseRevision == 1 && n.pending.Some? && PendingLinks(n)
            && ValidPendingTransition(Planned, n)
  {
  }

  /** Finishing the pending projection: the cursor moves to the event, which is in the log. */
  lemma ClearKeepsDelivery(w: World, d: DriverId, n: EvState, driver: Driver)
    requires OutboxInv(w) && Current(w, d) && w.state.Some? && w.state.value.pending.Some?
    requires w.drivers[d].note.Confirmed? && n == Cleared(w.state.value)
    ensures Path(w.committed) && Delivered(Written(w, d, n, driver, []))
    ensures Mentions(w.log, w.state.value.pending.value.id)
  {
    assert HoldsPending(w, d);
    PendingIsInTheLogIffDelivered(w);
    assert w.committed + [] == w.committed;
  }

  lemma StayKeepsDelivery(w: World, d: DriverId, n: EvState, driver: Driver)
    requires Delivered(w) && w.state.Some? && w.state.value.pending.None? && n.pending.None?
    requires n.phase == w.state.value.phase && n.phaseRevision == w.state.value.phaseRevision
    requires n.projected == w.state.value.projected && w.state.value.time <= n.time
    ensures Delivered(Written(w, d, n, driver, []))
  {
    assert w.committed + [] == w.committed;
  }

  /** A transition: its event joins the committed ones and is the only one not yet in the log. */
  lemma AdvanceKeepsDelivery(w: World, d: DriverId, n: EvState, driver: Driver)
    requires Path(w.committed) && Delivered(w) && w.state.Some? && w.state.value.pending.None?
    requires n.phaseRevision == w.state.value.phaseRevision + 1 && w.state.value.time <= n.time
    requires ValidPendingTransition(w.state.value.phase, n) && PendingLinks(n)
    ensures Path(w.committed + [n.pending.value])
    ensures Delivered(Written(w, d, n, driver, [n.pending.value]))
  {
    PendingTransitionIsAPhaseEvent(w.state.value.phase, n);
    hide ValidPendingTransition, ValidPhaseEvent;
    assert PathAt(w.committed, |w.committed| - 1);
    PathExtends(w.committed, n.pending.value);
    assert AllButLast(w.committed + [n.pending.value]) == w.committed;
  }

  /** Drivers left behind by a write hold no pending event, or one that is already in the log. */
  lemma WriteKeepsWitnesses(w: World, d: DriverId, n: EvState, driver: Driver, events: seq<RunEvent>)
    requires Snapshots(w) && Witnesses(w) && w.state.Some?
    requires w.state.value.pending.Some? ==> Mentions(w.log, w.state.value.pending.value.id)
    requires driver.revision == w.revision + 1 && driver.state == Some(n) && !driver.note.Confirmed?
    ensures Snapshots(Written(w, d, n, driver, events)) && Witnesses(Written(w, d, n, driver, events))
  {
  }

  /** The effect of one applied write on the outbox, whatever else it changes. */
  lemma WriteKeepsOutbox(w: World, d: DriverId, n: EvState, driver: Driver, events: seq<RunEvent>)
    requires OutboxInv(w) && Current(w, d) && w.state.Some?
    requires ValidSuccessor(w.state.value, n) && events == NewEvents(w.state.value, n)
    requires MoveOf(w.state.value, n).Clear? ==> w.drivers[d].note.Confirmed?
    requires MoveOf(w.state.value, n).Advance? ==> n.pending.Some? && PendingLinks(n)
    requires driver.revision == w.revision + 1 && driver.state == Some(n) && !driver.note.Confirmed?
    ensures OutboxInv(Written(w, d, n, driver, events))
  {
    hide ValidSuccessor, Delivered, Path, ReadableRun, ValidPendingTransition, Snapshots, Witnesses, PendingLinks;
    var s := w.state.value;
    SuccessorMoves(s, n);
    if MoveOf(s, n).Clear? {
      ClearKeepsDelivery(w, d, n, driver);
      assert w.committed + [] == w.committed;
    } else if MoveOf(s, n).Stay? {
      StayKeepsDelivery(w, d, n, driver);
      assert w.committed + [] == w.committed;
    } else {
      AdvanceKeepsDelivery(w, d, n, driver);
    }
    WriteKeepsWitnesses(w, d, n, driver, events);
  }

  lemma InstallKeepsOutbox(w: World, d: DriverId, plan: Plan, cursor: Option<Cursor>, now: Time)
    requires OutboxInv(w) && InstallApplies(w, d, plan, cursor, now)
    ensures OutboxInv(InstallStep(w, d, plan, cursor, now))
  {
    var n := Claimed(plan, w.drivers[d].note.root, cursor, now);
    ClaimAttaches(plan, w.drivers[d].note.root, cursor, now);
    PendingTransitionIsAPhaseEvent(Planned, n);
    hide ValidInitialInstall, Claimed, ValidPendingTransition, ValidPhaseEvent, ReadableRun;
    PathExtends([], n.pending.value);
    assert [] + [n.pending.value] == [n.pending.value];
    assert AllButLast([n.pending.value]) == [];
  }

  lemma AppendKeepsWitnesses(w: World, e: RunEvent)
    requires Witnesses(w)
    ensures Witnesses(w.(log := w.log + [e]))
  {
    forall d | d in w.drivers && HoldsPending(w, d) && (w.drivers[d].note.Confirmed? || w.drivers[d].revision < w.revision)
      ensures Mentions(w.log + [e], w.drivers[d].state.value.pending.value.id)
    {
      MentionsAppend(w.log, e, w.drivers[d].state.value.pending.value.id);
    }
  }

  /** Only a driver whose pending event is in the log may be told it is confirmed. */
  lemma TellingKeepsOutbox(w: World, d: DriverId, note: Note)
    requires OutboxInv(w) && d in w.drivers
    requires note.Confirmed? && HoldsPending(w, d) ==> Mentions(w.log, w.drivers[d].state.value.pending.value.id)
    ensures OutboxInv(Told(w, d, note))
  {
    hide ReadableRun, Path, Reaches;
  }

  /** The event that continues from the cursor keeps the log readable. */
  lemma LinkedEventExtendsTheLog(s: EvState, log: seq<RunEvent>)
    requires ReadableRun(log) && s.pending.Some? && PendingLinks(s) && CursorOf(log) == s.projected
    requires ValidPhaseEvent(s.pending.value) && s.pending.value.payload.PhaseNote?
    ensures ReadableRun(log + [s.pending.value])
  {
    hide ValidPhaseEvent;
    var e := s.pending.value;
    assert e.id.PhaseEventId? by { PhaseEventHasPhaseId(e); }
    if log != [] { assert LinkedAt(log, |log| - 1); }
    AppendKeepsLinked(log, e);
  }

  lemma PhaseEventHasPhaseId(e: RunEvent)
    requires ValidPhaseEvent(e) && e.payload.PhaseNote?
    ensures e.id.PhaseEventId?
  {
  }

  /** Appending the missing event of the present state completes the delivery. */
  lemma AppendPendingKeepsOutbox(w: World)
    requires OutboxInv(w) && w.state.Some? && w.state.value.pending.Some?
    requires !Mentions(w.log, w.state.value.pending.value.id) && CursorOf(w.log) == w.state.value.projected
    ensures OutboxInv(w.(log := w.log + [w.state.value.pending.value]))
  {
    var e := w.state.value.pending.value;
    AppendDelivers(w);
    assert Path(w.committed) && PathAt(w.committed, |w.committed| - 1);
    LinkedEventExtendsTheLog(w.state.value, w.log);
    AppendKeepsWitnesses(w, e);
    hide ReadableRun, Path, PathAt, PendingLinks, Witnesses, Delivered, ValidPhaseEvent, PhaseEvents;
  }

  lemma AppendDelivers(w: World)
    requires OutboxInv(w) && w.state.Some? && w.state.value.pending.Some?
    requires !Mentions(w.log, w.state.value.pending.value.id)
    ensures w.committed != [] && w.state.value.pending.value == w.committed[|w.committed| - 1]
    ensures Delivered(w.(log := w.log + [w.state.value.pending.value]))
  {
    var e := w.state.value.pending.value;
    PendingIsInTheLogIffDelivered(w);
    assert Path(w.committed) && PathAt(w.committed, |w.committed| - 1);
    PhaseEventsAppend(w.log, e);
    assert Delivered(w);
    hide OutboxInv, Path, PathAt, PendingLinks, PhaseEvents, Mentions;
    assert AllButLast(w.committed) + [e] == w.committed;
  }

  /** The reconciled log of a driver with the present state delivers the pending event; a driver with an
      older one finds its event already there and appends nothing. */
  lemma ConfirmKeepsOutbox(w: World, d: DriverId)
    requires OutboxInv(w) && HoldsPending(w, d)
    requires ReconciledLog(w.drivers[d].state.value, w.log).Some?
    ensures OutboxInv(ConfirmStep(w, d))
    ensures w.drivers[d].revision < w.revision ==> ConfirmStep(w, d).log == w.log
  {
    var s := w.drivers[d].state.value;
    var e := s.pending.value;
    if Mentions(w.log, e.id) {
      TellingKeepsOutbox(w, d, Confirmed);
    } else {
      assert w.state == Some(s);
      AppendPendingKeepsOutbox(w);
      MentionsAppend(w.log, e, e.id);
      TellingKeepsOutbox(w.(log := w.log + [e]), d, Confirmed);
    }
  }

  lemma AppendOtherKeepsOutbox(w: World, e: RunEvent)
    requires OutboxInv(w)
    ensures OutboxInv(Apply(w, AppendOther(e)))
  {
    if Apply(w, AppendOther(e)) != w {
      PhaseEventsAppend(w.log, e);
      AppendKeepsLinked(w.log, e);
      AppendKeepsWitnesses(w, e);
    }
  }

  /** What an applied commit is, in the outbox's terms. */
  lemma CommitIsAWrite(w: World, d: DriverId, cmd: Command)
    requires CommitApplies(w, d, cmd)
    ensures Current(w, d) && w.state.Some? && Accepted(w.state.value, cmd) && Enabled(w.state.value, cmd)
    ensures var s, n := w.state.value, Next(w.state.value, cmd);
            && ValidSuccessor(s, n)
            && (MoveOf(s, n).Clear? ==> w.drivers[d].note.Confirmed?)
            && CommitStep(w, d, cmd)
               == Written(w, d, n, AfterWrite(w.drivers[d], w.revision + 1, n, cmd), NewEvents(s, n))
  {
    hide Next, ValidSuccessor, OutboxInv;
  }

  lemma CommitKeepsOutbox(w: World, d: DriverId, cmd: Command)
    requires OutboxInv(w) && CommitApplies(w, d, cmd)
    ensures OutboxInv(CommitStep(w, d, cmd))
  {
    hide CommitApplies, CommitStep, Accepted, Next, ValidSuccessor, OutboxInv, PendingLinks, Enabled;
    CommitIsAWrite(w, d, cmd);
    var s, n := w.state.value, Next(w.state.value, cmd);
    if MoveOf(s, n).Advance? { AdvanceAttaches(s, cmd); }
    WriteKeepsOutbox(w, d, n, AfterWrite(w.drivers[d], w.revision + 1, n, cmd), NewEvents(s, n));
  }

  predicate Quiet(a: Action) {
    !a.Install? && !a.Commit? && !a.Confirm? && !a.AppendOther?
  }

  /** Loads, stops, notes and workspace effects touch neither the cell nor the log. */
  lemma QuietSteps(w: World, a: Action)
    requires Quiet(a)
    ensures var v := Apply(w, a);
            && v.log == w.log && v.state == w.state && v.revision == w.revision && v.committed == w.committed
            && (forall d :: d in v.drivers ==>
                  || v.drivers[d] == Driver(w.revision, w.state, false, Nothing)
                  || (d in w.drivers && v.drivers[d].revision == w.drivers[d].revision
                      && v.drivers[d].state == w.drivers[d].state
                      && (v.drivers[d].note.Confirmed? ==> w.drivers[d].note.Confirmed?)))
  {
    hide CommitStep, InstallStep, ConfirmStep, InspectRoot;
  }

  lemma QuietKeepsOutbox(w: World, a: Action)
    requires OutboxInv(w) && Quiet(a)
    ensures OutboxInv(Apply(w, a))
  {
    hide Apply, ReadableRun, Path, Reaches;
    QuietSteps(w, a);
  }

  /** Every action of every driver keeps the outbox. */
  lemma ActionKeepsOutbox(w: World, a: Action)
    requires OutboxInv(w)
    ensures OutboxInv(Apply(w, a))
  {
    hide CommitApplies, InstallApplies, ReconciledLog, OutboxInv;
    match a
    case Install(d, plan, cursor, now) =>
      if InstallApplies(w, d, plan, cursor, now) { InstallKeepsOutbox(w, d, plan, cursor, now); }
    case Commit(d, cmd) =>
      if CommitApplies(w, d, cmd) { CommitKeepsOutbox(w, d, cmd); }
    case Confirm(d) =>
      if HoldsPending(w, d) && ReconciledLog(w.drivers[d].state.value, w.log).Some? { ConfirmKeepsOutbox(w, d); }
    case AppendOther(e) => AppendOtherKeepsOutbox(w, e);
    case _ => QuietKeepsOutbox(w, a);
  }

  // ---------------------------------------------------------------- over every run

  lemma {:induction false} EveryRunKeepsOutbox(base: seq<RunEvent>, actions: seq<Action>)
    requires ReadableRun(base) && PhaseEvents(base) == []
    ensures OutboxInv(Run(Start(base), actions))
    decreases |actions|
  {
    if actions != [] {
      var front := actions[..|actions| - 1];
      EveryRunKeepsOutbox(base, front);
      ActionKeepsOutbox(Run(Start(base), front), actions[|actions| - 1]);
    }
  }

  /** No action ever removes or rewrites a logged event or a committed transition. */
  lemma ActionOnlyAppends(w: World, a: Action)
    ensures w.log <= Apply(w, a).log && w.committed <= Apply(w, a).committed
    ensures w.revision <= Apply(w, a).revision
  {
    hide CommitApplies, InstallApplies, FrozenMatches, ReadableLog, BrokerAllows, CanOpen, InspectRoot, Claimed;
  }

  lemma {:induction false} RunsOnlyAppend(w: World, actions: seq<Action>)
    ensures w.log <= Run(w, actions).log && w.committed <= Run(w, actions).committed
    decreases |actions|
  {
    if actions != [] {
      var front := actions[..|actions| - 1];
      RunsOnlyAppend(w, front);
      ActionOnlyAppends(Run(w, front), actions[|actions| - 1]);
    }
  }

  /** Exactly once: after any run, with crashes anywhere and any drivers racing, the log extends the base
      log and is linked, and its phase events are the committed transitions in revision order, each once
      (only a last one may still be pending). A state with nothing pending is fully delivered. */
  lemma TransitionsAreLoggedExactlyOnce(base: seq<RunEvent>, actions: seq<Action>)
    requires ReadableRun(base) && PhaseEvents(base) == []
    ensures var w := Run(Start(base), actions);
            && base <= w.log && Linked(w.log) && Path(w.committed)
            && (PhaseEvents(w.log) == w.committed
                || (w.state.Some? && w.state.value.pending.Some? && PhaseEvents(w.log) == AllButLast(w.committed)))
            && (w.state.Some? ==> |w.committed| == w.state.value.phaseRevision)
            && (forall i, j :: 0 <= i < j < |w.committed| ==> w.committed[i].id != w.committed[j].id)
  {
    hide Run, ValidPhaseEvent;
    EveryRunKeepsOutbox(base, actions);
    RunsOnlyAppend(Start(base), actions);
    var w := Run(Start(base), actions);
    forall i, j | 0 <= i < j < |w.committed| ensures w.committed[i].id != w.committed[j].id {
      DistinctIds(w.committed, i, j);
    }
  }

  lemma DistinctIds(committed: seq<RunEvent>, i: int, j: int)
    requires Path(committed) && 0 <= i < j < |committed|
    ensures committed[i].id != committed[j].id
  {
    assert PathAt(committed, i) && PathAt(committed, j);
  }

  /** Reconciling twice is reconciling once; when the cursor does not match, nothing is appended. */
  lemma ReconcilingIsIdempotent(w: World, d: DriverId)
    requires OutboxInv(w)
    ensures ConfirmStep(ConfirmStep(w, d), d) == ConfirmStep(w, d)
    ensures HoldsPending(w, d)
            && !Mentions(w.log, w.drivers[d].state.value.pending.value.id)
            && CursorOf(w.log) != w.drivers[d].state.value.projected
            ==> ConfirmStep(w, d) == w
  {
    var v := ConfirmStep(w, d);
    if HoldsPending(w, d) && ReconciledLog(w.drivers[d].state.value, w.log).Some? {
      var s := w.drivers[d].state.value;
      var e := s.pending.value;
      ConfirmKeepsOutbox(w, d);
      assert v.drivers[d].state.value == s;
      if !Mentions(w.log, e.id) { MentionsAppend(w.log, e, e.id); }
      assert ReconciledLog(s, v.log) == Some(v.log);
      assert v.drivers[d := v.drivers[d].(note := Confirmed)] == v.drivers;
    }
  }
}
