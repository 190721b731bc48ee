/** Runs that stopped between the write of a transition and the delivery of its event. Reconciling settles them,
    when the log still allows it, and then they end as any run nobody is working on; when it does not, every
    resume is refused. */
module EngineerVerifierInterrupted {
  import opened Common
  import opened RuntimeTypes
  import opened EngineerVerifierKernel
  import opened EngineerVerifierCommands
  import opened EngineerVerifierRuns
  import opened EngineerVerifierOutbox
  import opened EngineerVerifierCalls
  import opened EngineerVerifierAgreement
  import opened EngineerVerifierStuck
  import opened EngineerVerifierContinuations
  import opened EngineerVerifierEndings
  import EngineerVerifierLoop

  /** A transition is written and its event pending, and no driver that is up to date holds the lease. */
  predicate Interrupted(w: World) {
    && w.state.Some? && w.state.value.pending.Some? && (w.state.value.phase.Engineering? || w.state.value.phase.Verifying?)
    && Unowned(w)
  }

  function Reconciled(w: World): Option<seq<RunEvent>>
    requires w.state.Some? && w.state.value.pending.Some?
  {
    ReconciledLog(w.state.value, w.log)
  }

  /** The world once a driver has reconciled: the event is in the log, once, and the state points to it. */
  function Settled(w: World): World
    requires w.state.Some? && w.state.value.pending.Some? && Reconciled(w).Some?
  {
    var n := Cleared(w.state.value);
    w.(revision := w.revision + 1, state := Some(n), log := Reconciled(w).value,
       drivers := w.drivers[D := Driver(w.revision + 1, Some(n), false, Nothing)])
  }

  predicate Finishable(w: World)
    requires w.state.Some?
  {
    Recoverable(w) && !DeadEnd(w.state.value) && !HeldByItsRoot(w)
  }

  // ---------------------------------------------------------------- what every run keeps about its pending event

  /** The pending event says what the state says, and the cursor points into the log. */
  predicate PendingInv(w: World) {
    w.state.Some? ==>
      && (w.state.value.pending.Some? ==> FrozenMatches(w.state.value, w.state.value.pending.value))
      && (w.state.value.projected.Some? ==> w.state.value.projected.value.sequence < |w.log|)
  }

  lemma PendingIsAtItsPlace(w: World)
    requires OutboxInv(w) && w.state.Some? && w.state.value.pending.Some?
    requires Mentions(w.log, w.state.value.pending.value.id)
    ensures var e := w.state.value.pending.value; 0 <= e.sequence < |w.log| && w.log[e.sequence] == e
  {
    PendingIsInTheLogIffDelivered(w);
    var e := w.state.value.pending.value;
    var i :| 0 <= i < |w.log| && w.log[i] == e;
    assert LinkedAt(w.log, i) by { LinkedLog(w); }
    hide OutboxInv;
  }

  lemma LinkedLog(w: World)
    requires OutboxInv(w)
    ensures Linked(w.log)
  {
    hide Linked;
  }

  lemma CommitKeepsPending(w: World, d: DriverId, cmd: Command)
    requires OutboxInv(w) && PendingInv(w) && CommitApplies(w, d, cmd)
    ensures PendingInv(CommitStep(w, d, cmd))
  {
    hide CommitStep, Next, Enabled, Permitted, ValidSuccessor, OutboxInv, FrozenMatches;
    CommitPermits(w, d, cmd);
    var s, n := w.state.value, Next(w.state.value, cmd);
    if s.pending.Some? {
      ConfirmedIsLogged(w, d, cmd);
      PendingIsAtItsPlace(w);
    } else {
      EngineerVerifierLoop.AcceptedEventIsFrozen(s, cmd);
      CursorStays(s, cmd);
    }
    hide CommitApplies;
  }

  lemma CursorStays(s: EvState, cmd: Command)
    requires s.pending.None? && Enabled(s, cmd)
    ensures Next(s, cmd).projected == s.projected
  {
  }

  /** Only a confirmed event is cleared, and it is in the log. */
  lemma ConfirmedIsLogged(w: World, d: DriverId, cmd: Command)
    requires OutboxInv(w) && CommitApplies(w, d, cmd) && w.state.value.pending.Some?
    ensures cmd.ClearPending? && Mentions(w.log, w.state.value.pending.value.id)
    ensures Next(w.state.value, cmd) == Cleared(w.state.value)
  {
    hide ReadableRun, Path, EngineerVerifierOutbox.Delivered, ValidSuccessor;
    assert HoldsPending(w, d) && w.drivers[d].note.Confirmed?;
  }

  lemma InstallKeepsPending(w: World, d: DriverId, plan: Plan, cursor: Option<Cursor>, now: Time)
    requires InstallApplies(w, d, plan, cursor, now)
    ensures PendingInv(InstallStep(w, d, plan, cursor, now))
  {
    var n := Claimed(plan, w.drivers[d].note.root, cursor, now);
    EngineerVerifierLoop.ClaimedShape(plan, w.drivers[d].note.root, cursor, now);
    EngineerVerifierLoop.ClaimedEventIsFrozen(n);
    hide ValidInitialInstall, Claimed, FrozenMatches, TargetMatches;
  }

  lemma ActionKeepsPending(w: World, a: Action)
    requires OutboxInv(w) && PendingInv(w)
    ensures PendingInv(Apply(w, a))
  {
    ActionOnlyAppends(w, a);
    hide OutboxInv, FrozenMatches;
    match a
    case Install(d, plan, cursor, now) =>
      hide InstallStep;
      if InstallApplies(w, d, plan, cursor, now) { InstallKeepsPending(w, d, plan, cursor, now); }
      else { RefusedInstallKeeps(w, d, plan, cursor, now); }
    case Commit(d, cmd) =>
      hide CommitStep;
      if CommitApplies(w, d, cmd) { CommitKeepsPending(w, d, cmd); } else { RefusedCommit(w, d, cmd); }
    case _ => OtherStepsKeepState(w, a); hide Apply;
  }

  lemma RefusedInstallKeeps(w: World, d: DriverId, plan: Plan, cursor: Option<Cursor>, now: Time)
    requires !InstallApplies(w, d, plan, cursor, now)
    ensures InstallStep(w, d, plan, cursor, now) == w
  {
    hide InstallApplies;
  }

  lemma RefusedCommit(w: World, d: DriverId, cmd: Command)
    requires !CommitApplies(w, d, cmd)
    ensures CommitStep(w, d, cmd) == w
  {
    hide CommitApplies;
  }

  lemma {:induction false} EveryRunKeepsPending(base: seq<RunEvent>, actions: seq<Action>)
    requires ReadableRun(base) && PhaseEvents(base) == []
    ensures PendingInv(Run(Start(base), actions))
    decreases |actions|
  {
    hide Apply, ReadableRun, PhaseEvents;
    if actions != [] {
      var front := actions[..|actions| - 1];
      EveryRunKeepsPending(base, front);
      EveryRunKeepsOutbox(base, front);
      hide PendingInv, OutboxInv;
      ActionKeepsPending(Run(Start(base), front), actions[|actions| - 1]);
    }
  }

  // ---------------------------------------------------------------- settling

  lemma Settles(base: seq<RunEvent>, first: seq<Action>)
    requires ReadableRun(base) && PhaseEvents(base) == []
    requires var w := Run(Start(base), first); Interrupted(w) && Reconciled(w).Some?
    ensures var w := Run(Start(base), first);
            var steps := [Load(D), Confirm(D)] + [Commit(D, ClearPending)];
            && Run(Start(base), first + steps) == Settled(w) && Run(w, steps) == Settled(w) && HeedsAlways(w, steps)
            && Unattended(Settled(w))
  {
    hide ReadableRun, PhaseEvents, Settled, Reconciled, OutboxInv, Run, Apply;
    var w := Run(Start(base), first);
    var s := w.state.value;
    EveryRunKeepsOutbox(base, first);
    SettlingApplies(base, first);
    SettledIsUnattended(w);
    var confirmed := Apply(Apply(w, Load(D)), Confirm(D));
    SettlingHeeds(w);
    Follows(w, Load(D), Confirm(D));
    RunAppend(w, [Load(D), Confirm(D)], Commit(D, ClearPending));
    RunsCompose(Start(base), first, [Load(D), Confirm(D)] + [Commit(D, ClearPending)]);
  }

  lemma SettlingHeeds(w: World)
    ensures Heeds(w, Load(D)) && Heeds(Apply(w, Load(D)), Confirm(D))
    ensures Heeds(Apply(Apply(w, Load(D)), Confirm(D)), Commit(D, ClearPending))
  {
    hide ConfirmStep;
  }

  lemma SettlingApplies(base: seq<RunEvent>, first: seq<Action>)
    requires var w := Run(Start(base), first); Interrupted(w) && Reconciled(w).Some?
    ensures var w := Run(Start(base), first);
            Apply(Apply(Apply(w, Load(D)), Confirm(D)), Commit(D, ClearPending)) == Settled(w)
  {
    hide Run, Apply, ReconciledLog, Next, Enabled, Refused, ValidSuccessor, Unowned;
    ClearedNext(Run(Start(base), first).state.value);
    LoadedAccepts(base, first, ClearPending);
    LoadedConfirms(Run(Start(base), first));
    ConfirmedClears(Run(Start(base), first));
  }

  function ConfirmedBy(w: World, log: seq<RunEvent>): World {
    w.(log := log, drivers := w.drivers[D := Driver(w.revision, w.state, false, Confirmed)])
  }

  lemma LoadedConfirms(w: World)
    requires w.state.Some? && w.state.value.pending.Some? && Reconciled(w).Some?
    ensures Apply(Apply(w, Load(D)), Confirm(D)) == ConfirmedBy(w, Reconciled(w).value)
  {
    hide ReconciledLog;
  }

  lemma ConfirmedClears(w: World)
    requires w.state.Some? && w.state.value.pending.Some? && Reconciled(w).Some?
    requires var s := w.state.value; Enabled(s, ClearPending) && ValidSuccessor(s, Next(s, ClearPending))
    ensures Apply(ConfirmedBy(w, Reconciled(w).value), Commit(D, ClearPending)) == Settled(w)
  {
    hide ReconciledLog, Next, Enabled, ValidSuccessor;
    var s := w.state.value;
    var x := ConfirmedBy(w, Reconciled(w).value);
    ClearedNext(s);
    ClearAddsNothing(s);
    assert CommitApplies(x, D, ClearPending);
    AppliedCommit(x, s, ClearPending);
    assert w.committed + [] == w.committed;
  }

  lemma ClearedNext(s: EvState)
    requires s.pending.Some?
    ensures Enabled(s, ClearPending) && Next(s, ClearPending) == Cleared(s) && Cleared(s) != s
    ensures !Refused(s, ClearPending)
  {
  }

  lemma SettledIsUnattended(w: World)
    requires Interrupted(w) && Reconciled(w).Some? && OutboxInv(w)
    ensures Unattended(Settled(w))
  {
    hide ReconciledLog, ReadableRun, Path, EngineerVerifierOutbox.Delivered, Witnesses;
  }

  // ---------------------------------------------------------------- waiting for somebody to settle it

  /** Nothing that counts has happened since `w`: the same state, a longer log, and roots removed at most. */
  predicate WaitsSince(w: World, x: World) {
    && w.state.Some? && Interrupted(x) && x.state == w.state && w.log <= x.log && x.committed == w.committed
    && forall token :: token in x.roots ==> token in w.roots && x.roots[token] == w.roots[token]
  }

  /** Somebody settled it. */
  predicate SettledSince(w: World, x: World) {
    && w.state.Some? && w.state.value.pending.Some? && x.state == Some(Cleared(w.state.value)) && w.log <= x.log
    && x.committed == w.committed
    && Unowned(x)
    && forall token :: token in x.roots ==> token in w.roots && x.roots[token] == w.roots[token]
  }

  lemma WaitingGoesOn(w: World, x: World, a: Action)
    requires WaitsSince(w, x) && Snapshots(x)
    ensures var v := Apply(x, a); WaitsSince(w, v) || SettledSince(w, v)
  {
    ActionOnlyAppends(x, a);
    if a.Commit? {
      hide CommitStep, CommitApplies, ReconciledLog;
      if CommitApplies(x, a.d, a.cmd) { ClearingSettles(w, x, a.d, a.cmd); } else { RefusedCommit(x, a.d, a.cmd); }
    } else {
      OtherActionsFollowQuietly(x, a);
      RootsOnlyGo(x, a);
      SameTransitions(x, a);
      hide Apply;
    }
  }

  lemma ClearingSettles(w: World, x: World, d: DriverId, cmd: Command)
    requires WaitsSince(w, x) && Snapshots(x) && CommitApplies(x, d, cmd)
    ensures SettledSince(w, CommitStep(x, d, cmd))
  {
    hide CommitApplies, CommitStep, Next, Enabled, Permitted, ValidSuccessor;
    CommitPermits(x, d, cmd);
    ClearAddsNothing(x.state.value);
    assert x.committed + [] == x.committed;
    assert cmd.ClearPending? && Next(x.state.value, cmd) == Cleared(x.state.value) by { OnlyClearing(x.state.value, cmd); }
  }

  lemma OnlyClearing(s: EvState, cmd: Command)
    requires s.pending.Some? && Enabled(s, cmd)
    ensures cmd.ClearPending? && Next(s, cmd) == Cleared(s)
  {
  }

  lemma SameTransitions(x: World, a: Action)
    requires x.state.Some? && !a.Commit?
    ensures Apply(x, a).committed == x.committed
  {
    if !a.Install? { OtherStepsKeepState(x, a); hide Apply; } else { hide ValidInitialInstall, Claimed; }
  }

  /** While an event is pending nobody opens or writes a root. */
  lemma RootsOnlyGo(x: World, a: Action)
    requires Interrupted(x) && !a.Commit?
    ensures var v := Apply(x, a); forall token :: token in v.roots ==> token in x.roots && v.roots[token] == x.roots[token]
  {
    hide CommitStep, Claimed, ValidInitialInstall, FrozenMatches, ReadableLog, InspectRoot, NextEffect, NextIsWrite;
  }

  /** What somebody settled later could have been settled now, with the same outcome. */
  lemma SettledLaterIsSettledNow(base: seq<RunEvent>, first: seq<Action>, next: seq<Action>)
    requires ReadableRun(base) && PhaseEvents(base) == []
    requires var w, x := Run(Start(base), first), Run(Start(base), next);
             Interrupted(w) && SettledSince(w, x) && Recoverable(x)
    ensures var w, x := Run(Start(base), first), Run(Start(base), next);
            && Reconciled(w).Some? && Settled(w).log == x.log && Recoverable(Settled(w))
            && (HeldByItsRoot(Settled(w)) <==> HeldByItsRoot(x)) && (Cancellable(Settled(w)) <==> Cancellable(x))
  {
    hide Run, ReadableRun, PhaseEvents, LeaseIsGone, LastDenied;
    hide OutboxInv, PendingInv, ReconciledLog;
    var w, x := Run(Start(base), first), Run(Start(base), next);
    EveryRunKeepsOutbox(base, first);
    EveryRunKeepsOutbox(base, next);
    EveryRunKeepsPending(base, first);
    SettledLogs(w, x);
  }

  lemma SettledLogs(w: World, x: World)
    requires OutboxInv(w) && OutboxInv(x) && PendingInv(w) && Interrupted(w) && SettledSince(w, x)
    requires CursorOf(x.log) == x.state.value.projected
    ensures Reconciled(w) == Some(x.log)
  {
    var s := w.state.value;
    SettledEventIsLast(w, x);
    PendingIsInTheLogIffDelivered(w);
    EngineerVerifierLoop.PendingCanBeReconciled(w, s);
    if PhaseEvents(w.log) == w.committed { DeliveredIsWhole(w, x); } else { UndeliveredIsOneShort(w, x); }
    hide OutboxInv, FrozenMatches, PhaseEvents, ReconciledLog, CursorOf;
  }

  lemma DeliveredIsWhole(w: World, x: World)
    requires OutboxInv(w) && Interrupted(w) && w.log <= x.log && PhaseEvents(w.log) == w.committed
    requires |x.log| == w.state.value.pending.value.sequence + 1
    ensures w.log == x.log && w.log != [] && w.log[|w.log| - 1] == w.state.value.pending.value
  {
    PendingIsInTheLogIffDelivered(w);
    PendingIsAtItsPlace(w);
    hide OutboxInv, PhaseEvents;
  }

  lemma UndeliveredIsOneShort(w: World, x: World)
    requires OutboxInv(w) && OutboxInv(x) && PendingInv(w) && Interrupted(w) && w.log <= x.log
    requires PhaseEvents(w.log) != w.committed
    requires var e := w.state.value.pending.value;
             0 <= e.sequence && |x.log| == e.sequence + 1 && x.log[e.sequence] == e
    ensures x.log == w.log + [w.state.value.pending.value] && CursorOf(w.log) == w.state.value.projected
  {
    PendingIsInTheLogIffDelivered(w);
    UndeliveredEndsBefore(w, x);
    hide OutboxInv, PendingInv, PhaseEvents;
    assert x.log == w.log + [w.state.value.pending.value];
    LastBefore(w, x);
  }

  /** The cleared event ends the log. */
  lemma SettledEventIsLast(w: World, x: World)
    requires OutboxInv(x) && Interrupted(w) && SettledSince(w, x) && CursorOf(x.log) == x.state.value.projected
    requires OutboxInv(w)
    ensures var e := w.state.value.pending.value; 0 <= e.sequence && |x.log| == e.sequence + 1 && x.log[e.sequence] == e
  {
    var e := w.state.value.pending.value;
    LogEnd(x);
    LinkedLog(x);
    CommittedEnds(x);
    var last := x.committed[|x.committed| - 1];
    PhaseEventsAreInTheLog(x.log, last);
    var i :| 0 <= i < |x.log| && x.log[i] == last;
    assert LinkedAt(x.log, i);
    SameLast(w, x);
    hide OutboxInv, PhaseEvents, Linked;
  }

  /** A run at rest has delivered all its transitions. */
  lemma CommittedEnds(x: World)
    requires OutboxInv(x) && x.state.Some? && x.state.value.pending.None?
    ensures x.committed != [] && x.committed[|x.committed| - 1] in PhaseEvents(x.log)
    ensures var last := x.committed[|x.committed| - 1];
            x.state.value.projected == Some(Cursor(last.sequence, last.id))
  {
  }

  /** Events with the same id at the same place of a longer log are the same. */
  lemma SameLast(w: World, x: World)
    requires OutboxInv(w) && OutboxInv(x) && Interrupted(w) && SettledSince(w, x)
    ensures x.committed != [] && x.committed[|x.committed| - 1] == w.state.value.pending.value
  {
  }

  lemma UndeliveredEndsBefore(w: World, x: World)
    requires PendingInv(w) && Interrupted(w) && OutboxInv(w) && w.log <= x.log
    requires var e := w.state.value.pending.value;
             0 <= e.sequence && |x.log| == e.sequence + 1 && x.log[e.sequence] == e && !Mentions(w.log, e.id)
    ensures |w.log| == w.state.value.pending.value.sequence
  {
    var e := w.state.value.pending.value;
    PrefixHolds(w.log, x.log, e.sequence);
    PendingFollowsCursor(w);
    hide OutboxInv, FrozenMatches;
  }

  lemma PrefixHolds(prefix: seq<RunEvent>, log: seq<RunEvent>, k: int)
    requires prefix <= log && 0 <= k < |log|
    ensures k < |prefix| ==> Mentions(prefix, log[k].id)
  {
    if k < |prefix| { assert prefix[k] == log[k]; }
  }

  lemma PendingFollowsCursor(w: World)
    requires OutboxInv(w) && Interrupted(w)
    ensures PendingLinks(w.state.value)
  {
  }

  lemma LastBefore(w: World, x: World)
    requires OutboxInv(w) && OutboxInv(x) && Interrupted(w)
    requires x.log == w.log + [w.state.value.pending.value]
    ensures CursorOf(w.log) == w.state.value.projected
  {
    PendingFollowsCursor(w);
    LinkedLog(x);
    LinkedLog(w);
    assert LinkedAt(x.log, |w.log|);
    assert x.log[..|w.log|] == w.log;
    LogEnd(w);
    hide OutboxInv, Linked;
  }

  // ---------------------------------------------------------------- the two conditions

  /** Whatever ends a run that waits to be settled could end it once it is settled now. */
  lemma {:induction false} WhateverEndsIt(base: seq<RunEvent>, first: seq<Action>, next: seq<Action>, later: seq<Action>)
    requires ReadableRun(base) && PhaseEvents(base) == []
    requires var w, x := Run(Start(base), first), Run(Start(base), next);
             Interrupted(w) && WaitsSince(w, x) && HeedsAlways(x, later)
    ensures var w, x := Run(Start(base), first), Run(Start(base), next);
            && (Finished(Run(x, later)) ==> Reconciled(w).Some? && Finishable(Settled(w)))
            && (IsCancelled(Run(x, later)) && w.state.value.cancellation.Some? ==>
                  Reconciled(w).Some? && Recoverable(Settled(w)) && Cancellable(Settled(w)))
    decreases |later|
  {
    var w, x := Run(Start(base), first), Run(Start(base), next);
    if later == [] {
      hide ReadableRun, PhaseEvents, Reconciled, Finishable, Recoverable, Cancellable, Settled;
    } else {
      var a, rest := later[0], later[1..];
      assert [a] + rest == later;
      HeedsCompose(x, [a], rest);
      RunsCompose(x, [a], rest);
      EveryRunKeepsOutbox(base, next);
      hide ReadableRun, PhaseEvents, Reconciled, Finishable, Recoverable, Cancellable, Settled, HeedsAlways, WaitsSince;
      hide SettledSince, Interrupted, Apply, Finished, IsCancelled;
      assert Snapshots(x) by { hide ReadableRun, Path, Witnesses, EngineerVerifierOutbox.Delivered; }
      hide OutboxInv, Snapshots;
      WaitingGoesOn(w, x, a);
      FirstStep(x, a);
      RunAppend(Start(base), next, a);
      var v := Apply(x, a);
      hide Run;
      if WaitsSince(w, v) { WhateverEndsIt(base, first, next + [a], rest); }
      else { WhateverEndsItSettled(base, first, next + [a], rest); }
    }
  }

  lemma FirstStep(x: World, a: Action)
    ensures Run(x, [a]) == Apply(x, a)
  {
    hide Apply;
    assert [a][..0] == [];
  }

  lemma WhateverEndsItSettled(base: seq<RunEvent>, first: seq<Action>, next: seq<Action>, later: seq<Action>)
    requires ReadableRun(base) && PhaseEvents(base) == []
    requires var w, x := Run(Start(base), first), Run(Start(base), next);
             Interrupted(w) && SettledSince(w, x) && HeedsAlways(x, later)
    ensures var w, x := Run(Start(base), first), Run(Start(base), next);
            && (Finished(Run(x, later)) ==> Reconciled(w).Some? && Finishable(Settled(w)))
            && (IsCancelled(Run(x, later)) && w.state.value.cancellation.Some? ==>
                  Reconciled(w).Some? && Recoverable(Settled(w)) && Cancellable(Settled(w)))
  {
    var w, x := Run(Start(base), first), Run(Start(base), next);
    hide Run, ReadableRun, PhaseEvents, Recoverable, HeedsAlways, DeadEnd, HeldByItsRoot, Cancellable, ReconciledLog;
    assert Unattended(x);
    if Finished(Run(x, later)) {
      UnattendedRunIsFinishedIff(base, next);
      SettledLaterIsSettledNow(base, first, next);
    }
    if IsCancelled(Run(x, later)) && w.state.value.cancellation.Some? {
      RecordedCancellationIsCarriedOutIff(base, next);
      SettledLaterIsSettledNow(base, first, next);
    }
  }

  /** Finishing an interrupted run, exactly: its event can still be reconciled, and what that leaves can be
      finished. */
  lemma InterruptedRunIsFinishedIff(base: seq<RunEvent>, first: seq<Action>)
    requires ReadableRun(base) && PhaseEvents(base) == []
    requires Interrupted(Run(Start(base), first))
    ensures var w := Run(Start(base), first); CanFinish(w) <==> Reconciled(w).Some? && Finishable(Settled(w))
  {
    var w := Run(Start(base), first);
    hide Run, ReadableRun, PhaseEvents, HeedsAlways, ReconciledLog;
    if CanFinish(w) {
      var later :| HeedsAlways(w, later) && Finished(Run(w, later));
      hide Finishable, Settled, Finished;
      WhateverEndsIt(base, first, first, later);
    }
    if Reconciled(w).Some? && Finishable(Settled(w)) {
      Settles(base, first);
      var steps := [Load(D), Confirm(D)] + [Commit(D, ClearPending)];
      hide Settled, Recoverable, DeadEnd, HeldByItsRoot, CanFinish;
      UnattendedRunIsFinishedIff(base, first + steps);
      Before(w, steps);
    }
  }

  /** And so for its recorded cancellation. */
  lemma InterruptedCancellationIsCarriedOutIff(base: seq<RunEvent>, first: seq<Action>)
    requires ReadableRun(base) && PhaseEvents(base) == []
    requires var w := Run(Start(base), first); Interrupted(w) && w.state.value.cancellation.Some?
    ensures var w := Run(Start(base), first);
            CanBeCancelled(w) <==> Reconciled(w).Some? && Recoverable(Settled(w)) && Cancellable(Settled(w))
  {
    var w := Run(Start(base), first);
    hide Run, ReadableRun, PhaseEvents, HeedsAlways, ReconciledLog, Recoverable, Cancellable;
    if CanBeCancelled(w) {
      var later :| HeedsAlways(w, later) && IsCancelled(Run(w, later));
      hide Settled, IsCancelled;
      WhateverEndsIt(base, first, first, later);
    }
    if Reconciled(w).Some? && Recoverable(Settled(w)) && Cancellable(Settled(w)) {
      Settles(base, first);
      var steps := [Load(D), Confirm(D)] + [Commit(D, ClearPending)];
      SettledCancellation(w);
      hide Settled, CanBeCancelled;
      RecordedCancellationIsCarriedOutIff(base, first + steps);
      Before(w, steps);
    }
  }

  lemma SettledCancellation(w: World)
    requires Interrupted(w) && Reconciled(w).Some?
    ensures Settled(w).state.value.cancellation == w.state.value.cancellation
  {
    hide ReconciledLog;
  }
}
