/** The executor call of each attempt, and cancellation. The call begins only after the driver's own
    Started record is committed, and a resumed Started record is never called again; a committed
    cancellation is never lost and never leads to Reviewing. */
module EngineerVerifierCalls {
  import opened Common
  import opened RuntimeTypes
  import opened EngineerVerifierKernel
  import opened EngineerVerifierCommands
  import opened EngineerVerifierRuns
  import opened EngineerVerifierOutbox

  predicate Distinct(attempts: seq<int>) {
    forall i, j :: 0 <= i < j < |attempts| ==> attempts[i] != attempts[j]
  }

  /** Attempts called so far, against the state's attempt and executor record. */
  predicate CallsMatch(s: EvState, invocations: seq<int>) {
    && 1 <= s.attempt <= s.plan.maxAttempts
    && Distinct(invocations)
    && (forall a :: a in invocations ==> 1 <= a <= s.attempt)
    && (forall a :: 1 <= a < s.attempt ==> a in invocations)
    && (s.executor.NotStarted? ==> s.attempt !in invocations)
    && (s.executor.OutcomeRecorded? ==> s.attempt in invocations)
  }

  /** A driver that may call the executor holds the attempt's Started record, alone. */
  predicate CallerFits(w: World, d: DriverId)
    requires d in w.drivers && w.state.Some?
  {
    match w.drivers[d].note
    case MayInvoke =>
      && w.drivers[d].state.Some? && w.drivers[d].state.value.attempt == w.state.value.attempt
      && w.state.value.executor.Started? && w.state.value.attempt !in w.invocations
    case Calling => w.drivers[d].state.Some? && w.drivers[d].state.value.attempt in w.invocations
    case Answered(_) => w.drivers[d].state.Some? && w.drivers[d].state.value.attempt in w.invocations
    case _ => true
  }

  predicate CalmNote(note: Note) { !note.MayInvoke? && !note.Calling? && !note.Answered? }

  predicate CallsInv(w: World) {
    && Snapshots(w)
    && match w.state
       case None => w.invocations == [] && forall d :: d in w.drivers ==> CalmNote(w.drivers[d].note)
       case Some(s) =>
         && CallsMatch(s, w.invocations)
         && (forall d :: d in w.drivers ==> CallerFits(w, d))
         && (forall d, f ::
               (d in w.drivers && f in w.drivers && w.drivers[d].note.MayInvoke? && w.drivers[f].note.MayInvoke?)
               ==> d == f)
  }

  /** Which writes touch the executor record, and how. */
  lemma ExecutorChanges(s: EvState, cmd: Command)
    requires Enabled(s, cmd)
    ensures var n := Next(s, cmd);
            && n.plan == s.plan
            && (if cmd.ClaimRetry? then
                  && n.attempt == s.attempt + 1 <= s.plan.maxAttempts
                  && n.executor.NotStarted? && s.executor.OutcomeRecorded?
                else n.attempt == s.attempt)
            && (cmd.StartExecutor? ==> s.executor.NotStarted? && n.executor.Started?)
            && (cmd.RecordOutcome? ==> s.executor.Started? && n.executor.OutcomeRecorded?)
            && (!cmd.ClaimRetry? && !cmd.StartExecutor? && !cmd.RecordOutcome? ==> n.executor == s.executor)
  {
  }

  lemma ClaimStartsUncalled(plan: Plan, root: Lease, cursor: Option<Cursor>, now: Time)
    requires ValidInitialInstall(Claimed(plan, root, cursor, now))
    ensures CallsMatch(Claimed(plan, root, cursor, now), [])
    ensures Claimed(plan, root, cursor, now).cancellation.None?
  {
  }

  lemma WriteKeepsCalls(w: World, d: DriverId, cmd: Command)
    requires CallsInv(w) && CommitApplies(w, d, cmd)
    ensures CallsInv(CommitStep(w, d, cmd))
  {
    hide CommitApplies, CommitStep, Accepted, Next, ValidSuccessor, Enabled;
    CommitIsAWrite(w, d, cmd);
    ExecutorChanges(w.state.value, cmd);
    if cmd.RecordOutcome? { assert w.drivers[d].note.Answered? by { RecordNeedsAnswer(w, d, cmd); } }
    var s, n := w.state.value, Next(w.state.value, cmd);
    assert w.drivers[d].state == w.state;
    assert CallerFits(w, d);
    if cmd.RecordOutcome? { assert s.attempt in w.invocations; }
    assert CallsMatch(n, w.invocations);
    forall f | f in w.drivers && f != d && w.drivers[f].note.MayInvoke?
      ensures n.attempt == s.attempt && n.executor.Started?
    {
      assert CallerFits(w, f);
    }
  }

  lemma RecordNeedsAnswer(w: World, d: DriverId, cmd: Command)
    requires CommitApplies(w, d, cmd) && cmd.RecordOutcome?
    ensures w.drivers[d].note == Answered(cmd.outcome)
  {
    hide Accepted;
  }

  lemma InstallKeepsCalls(w: World, d: DriverId, plan: Plan, cursor: Option<Cursor>, now: Time)
    requires CallsInv(w) && InstallApplies(w, d, plan, cursor, now)
    ensures CallsInv(InstallStep(w, d, plan, cursor, now))
  {
    hide ValidInitialInstall, Claimed, CallsMatch;
    ClaimStartsUncalled(plan, w.drivers[d].note.root, cursor, now);
  }

  lemma InvokeKeepsCalls(w: World, d: DriverId)
    requires CallsInv(w)
    ensures CallsInv(Apply(w, Invoke(d)))
  {
    var v := Apply(w, Invoke(d));
    if v != w {
      assert w.state.Some?;
      assert CallerFits(w, d);
      var a := w.state.value.attempt;
      assert v.invocations == w.invocations + [a];
      assert a in v.invocations;
    }
  }

  /** What the actions other than writes and calls leave of the drivers' notes. */
  lemma OtherStepsAreCalm(w: World, a: Action)
    requires !a.Install? && !a.Commit? && !a.Invoke?
    ensures var v := Apply(w, a);
            && v.state == w.state && v.revision == w.revision && v.invocations == w.invocations
            && (forall d :: d in v.drivers ==>
                  || v.drivers[d] == Driver(w.revision, w.state, false, Nothing)
                  || (d in w.drivers && v.drivers[d].revision == w.drivers[d].revision
                      && v.drivers[d].state == w.drivers[d].state
                      && (|| v.drivers[d].note == w.drivers[d].note
                          || CalmNote(v.drivers[d].note)
                          || (w.drivers[d].note.Calling? && v.drivers[d].note.Answered?))))
  {
    hide CommitStep, InstallStep, FrozenMatches, ReadableLog, InspectRoot, NextEffect, NextIsWrite;
  }

  lemma OtherStepsKeepCalls(w: World, a: Action)
    requires CallsInv(w) && !a.Install? && !a.Commit? && !a.Invoke?
    ensures CallsInv(Apply(w, a))
  {
    hide Apply, CallsMatch;
    OtherStepsAreCalm(w, a);
    var v := Apply(w, a);
    if w.state.Some? {
      forall d | d in v.drivers ensures CallerFits(v, d) {
        if d in w.drivers { assert CallerFits(w, d); }
      }
    }
  }

  lemma ActionKeepsCalls(w: World, a: Action)
    requires CallsInv(w)
    ensures CallsInv(Apply(w, a))
  {
    hide CommitApplies, InstallApplies, CallsInv, ConfirmStep, BrokerAllows, CanOpen, InspectRoot;
    match a
    case Install(d, plan, cursor, now) =>
      if InstallApplies(w, d, plan, cursor, now) { InstallKeepsCalls(w, d, plan, cursor, now); }
    case Commit(d, cmd) =>
      if CommitApplies(w, d, cmd) { WriteKeepsCalls(w, d, cmd); }
    case Invoke(d) => InvokeKeepsCalls(w, d);
    case _ => OtherStepsKeepCalls(w, a);
  }

  lemma {:induction false} EveryRunKeepsCalls(base: seq<RunEvent>, actions: seq<Action>)
    ensures CallsInv(Run(Start(base), actions))
    decreases |actions|
  {
    if actions != [] {
      var front := actions[..|actions| - 1];
      EveryRunKeepsCalls(base, front);
      ActionKeepsCalls(Run(Start(base), front), actions[|actions| - 1]);
    }
  }

  // ---------------------------------------------------------------- at most once

  lemma {:induction false} DistinctBoundedByMaximum(attempts: seq<int>, bound: int)
    requires Distinct(attempts) && bound >= 0
    requires forall i :: 0 <= i < |attempts| ==> 1 <= attempts[i] <= bound
    ensures |attempts| <= bound
    decreases bound
  {
    if bound > 0 {
      if bound in attempts {
        var k :| 0 <= k < |attempts| && attempts[k] == bound;
        var rest := attempts[..k] + attempts[k + 1..];
        assert forall i :: 0 <= i < |rest| ==> rest[i] == attempts[if i < k then i else i + 1];
        DistinctBoundedByMaximum(rest, bound - 1);
      } else {
        DistinctBoundedByMaximum(attempts, bound - 1);
      }
    }
  }

  /** Over every run the executor is called at most once per attempt and at most max_attempts times. */
  lemma ExecutorIsCalledAtMostOncePerAttempt(base: seq<RunEvent>, actions: seq<Action>)
    ensures var w := Run(Start(base), actions);
            && Distinct(w.invocations)
            && (w.invocations != [] ==>
                  w.state.Some? && |w.invocations| <= w.state.value.attempt <= w.state.value.plan.maxAttempts)
  {
    EveryRunKeepsCalls(base, actions);
    var w := Run(Start(base), actions);
    hide Run;
    if w.state.Some? {
      forall i | 0 <= i < |w.invocations| ensures 1 <= w.invocations[i] <= w.state.value.attempt {
        assert w.invocations[i] in w.invocations;
      }
      DistinctBoundedByMaximum(w.invocations, w.state.value.attempt);
    }
  }

  /** The stored state is valid, and a run waits for a retry only on an outcome that asked for one. */
  predicate StoredInv(w: World) {
    w.state.Some? ==>
      && ValidState(w.state.value)
      && (w.state.value.phase.RetryPending? ==>
            w.state.value.executor.OutcomeRecorded? && w.state.value.executor.outcome.ExecutorRetry?)
  }

  lemma RetryPendingNeedsItsOutcome(s: EvState, cmd: Command)
    requires Enabled(s, cmd) && Next(s, cmd).phase.RetryPending?
    requires s.phase.RetryPending? ==> s.executor.OutcomeRecorded? && s.executor.outcome.ExecutorRetry?
    ensures Next(s, cmd).executor.OutcomeRecorded? && Next(s, cmd).executor.outcome.ExecutorRetry?
  {
  }

  lemma AcceptedIsValid(s: EvState, cmd: Command)
    requires Accepted(s, cmd)
    ensures ValidState(Next(s, cmd))
  {
    hide ValidState, Next, Enabled;
  }

  lemma InstallIsValid(w: World, d: DriverId, plan: Plan, cursor: Option<Cursor>, now: Time)
    requires InstallApplies(w, d, plan, cursor, now)
    ensures StoredInv(InstallStep(w, d, plan, cursor, now))
  {
    hide ValidState, Claimed, ValidPendingTransition;
    ClaimAttaches(plan, w.drivers[d].note.root, cursor, now);
  }

  lemma ActionKeepsStored(w: World, a: Action)
    requires StoredInv(w)
    ensures StoredInv(Apply(w, a))
  {
    hide CommitApplies, InstallApplies, ConfirmStep, BrokerAllows, CanOpen, InspectRoot, Next, Enabled, ValidState;
    match a
    case Install(d, plan, cursor, now) =>
      if InstallApplies(w, d, plan, cursor, now) { InstallIsValid(w, d, plan, cursor, now); }
    case Commit(d, cmd) =>
      if CommitApplies(w, d, cmd) {
        CommitIsAWrite(w, d, cmd);
        hide CommitStep, Accepted;
        AcceptedIsValid(w.state.value, cmd);
        if Next(w.state.value, cmd).phase.RetryPending? { RetryPendingNeedsItsOutcome(w.state.value, cmd); }
      }
    case _ => OtherStepsKeepState(w, a);
  }

  lemma OtherStepsKeepState(w: World, a: Action)
    requires !a.Install? && !a.Commit?
    ensures Apply(w, a).state == w.state && Apply(w, a).committed == w.committed
  {
    hide FrozenMatches, ReadableLog, BrokerAllows, StaleOwnerActs, CanOpen, InspectRoot;
  }

  lemma {:induction false} EveryRunKeepsStored(base: seq<RunEvent>, actions: seq<Action>)
    ensures StoredInv(Run(Start(base), actions))
    decreases |actions|
  {
    hide Apply;
    if actions != [] {
      var front := actions[..|actions| - 1];
      EveryRunKeepsStored(base, front);
      ActionKeepsStored(Run(Start(base), front), actions[|actions| - 1]);
    }
  }

  /** A run waiting for a retry has called every attempt so far and has one left: the transition for an
      exhausted budget is never asked for. */
  lemma RetryIsNeverExhausted(base: seq<RunEvent>, actions: seq<Action>, now: Time)
    requires var w := Run(Start(base), actions); w.state.Some? && w.state.value.phase.RetryPending?
    ensures var w := Run(Start(base), actions);
            && !Enabled(w.state.value, Transition(Failed, RetryExhausted, now))
            && w.state.value.attempt < w.state.value.plan.maxAttempts
            && forall a :: 1 <= a <= w.state.value.attempt <==> a in w.invocations
  {
    EveryRunKeepsCalls(base, actions);
    EveryRunKeepsStored(base, actions);
    hide Run;
  }

  // ---------------------------------------------------------------- cancellation

  predicate CancellationRecorded(w: World) { w.state.Some? && w.state.value.cancellation.Some? }

  /** Only the admission of evidence reaches Reviewing, and only without a cancellation. */
  lemma WritesKeepCancellation(s: EvState, cmd: Command)
    requires Enabled(s, cmd)
    ensures s.cancellation.Some? ==> Next(s, cmd).cancellation == s.cancellation
    ensures s.cancellation.Some? && Next(s, cmd).phase.Reviewing? ==> s.phase.Reviewing?
    ensures s.cancellation.None? && Next(s, cmd).cancellation.Some? ==>
              !Terminal(s.phase) && Next(s, cmd).phase == s.phase
    ensures s.cancellation.Some? ==> !cmd.StartExecutor? && !cmd.ClaimRetry?
  {
  }

  predicate ReviewingUncancelled(w: World) {
    w.state.Some? && w.state.value.phase.Reviewing? ==> w.state.value.cancellation.None?
  }

  lemma ActionKeepsCancellation(w: World, a: Action)
    requires CallsInv(w)
    ensures ReviewingUncancelled(w) ==> ReviewingUncancelled(Apply(w, a))
    ensures CancellationRecorded(w) ==>
              && CancellationRecorded(Apply(w, a))
              && Apply(w, a).state.value.cancellation == w.state.value.cancellation
              && (Apply(w, a).state.value.phase.Reviewing? ==> w.state.value.phase.Reviewing?)
              && (!w.state.value.executor.Started? ==>
                    && Apply(w, a).state.value.executor == w.state.value.executor
                    && Apply(w, a).invocations == w.invocations)
  {
    hide CommitApplies, InstallApplies, ConfirmStep, BrokerAllows, CanOpen, InspectRoot, CallsMatch, Next, Enabled;
    match a
    case Install(d, plan, cursor, now) =>
      if InstallApplies(w, d, plan, cursor, now) { InstallIsUncancelled(w, d, plan, cursor, now); }
    case Commit(d, cmd) =>
      if CommitApplies(w, d, cmd) {
        CommitIsAWrite(w, d, cmd);
        hide CommitStep;
        WritesKeepCancellation(w.state.value, cmd);
        ExecutorChanges(w.state.value, cmd);
      }
    case Invoke(d) =>
      if d in w.drivers && w.state.Some? { assert CallerFits(w, d); }
    case _ => OtherStepsAreCalm(w, a);
  }

  lemma InstallIsUncancelled(w: World, d: DriverId, plan: Plan, cursor: Option<Cursor>, now: Time)
    requires InstallApplies(w, d, plan, cursor, now)
    ensures w.state.None? && InstallStep(w, d, plan, cursor, now).state.Some?
    ensures InstallStep(w, d, plan, cursor, now).state.value.cancellation.None?
  {
    hide ValidInitialInstall, Claimed;
    ClaimStartsUncalled(plan, w.drivers[d].note.root, cursor, now);
  }

  lemma {:induction false} EveryRunKeepsReviewingUncancelled(base: seq<RunEvent>, actions: seq<Action>)
    ensures ReviewingUncancelled(Run(Start(base), actions))
    decreases |actions|
  {
    if actions != [] {
      var front := actions[..|actions| - 1];
      EveryRunKeepsReviewingUncancelled(base, front);
      EveryRunKeepsCalls(base, front);
      ActionKeepsCancellation(Run(Start(base), front), actions[|actions| - 1]);
    }
  }

  lemma {:induction false} CancellationStays(w: World, actions: seq<Action>)
    requires CallsInv(w) && CancellationRecorded(w) && !w.state.value.phase.Reviewing?
    ensures var v := Run(w, actions);
            && CallsInv(v) && CancellationRecorded(v)
            && v.state.value.cancellation == w.state.value.cancellation
            && !v.state.value.phase.Reviewing?
            && (!w.state.value.executor.Started? ==>
                  v.state.value.executor == w.state.value.executor && v.invocations == w.invocations)
    decreases |actions|
  {
    hide CallsInv, Apply;
    if actions != [] {
      var front := actions[..|actions| - 1];
      CancellationStays(w, front);
      ActionKeepsCalls(Run(w, front), actions[|actions| - 1]);
      ActionKeepsCancellation(Run(w, front), actions[|actions| - 1]);
    }
  }

  lemma {:induction false} RunsCompose(w: World, first: seq<Action>, later: seq<Action>)
    ensures Run(w, first + later) == Run(Run(w, first), later)
    decreases |later|
  {
    hide Apply;
    if later == [] {
      assert first + later == first;
    } else {
      var front := later[..|later| - 1];
      RunsCompose(w, first, front);
      assert (first + later)[..|first + later| - 1] == first + front;
    }
  }

  /** Once a cancellation is committed no continuation of the run reaches Reviewing or loses it; and if no
      executor call was outstanding then (none started, or the run waits for a retry), no call begins. */
  lemma CancellationIsFinal(base: seq<RunEvent>, first: seq<Action>, later: seq<Action>)
    requires CancellationRecorded(Run(Start(base), first))
    ensures var w, v := Run(Start(base), first), Run(Start(base), first + later);
            && CancellationRecorded(v) && v.state.value.cancellation == w.state.value.cancellation
            && !v.state.value.phase.Reviewing?
            && (!w.state.value.executor.Started? ==> v.invocations == w.invocations)
  {
    EveryRunKeepsCalls(base, first);
    EveryRunKeepsReviewingUncancelled(base, first);
    RunsCompose(Start(base), first, later);
    CancellationStays(Run(Start(base), first), later);
  }
}
