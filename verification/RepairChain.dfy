/** Chains of repair runs. A candidate whose review and audit both fail is followed by exactly one
    successor, bound to it by a directive; a run is reviewed as a successor only when its packet fits that
    directive. */
module RepairChain {
  import opened Common
  import opened RuntimeTypes
  import opened ReviewAuditKernel

  /** The review states of all runs. */
  type Store = map<RunId, ReviewState>

  /** Whether a candidate may enter review, given what is stored about the run it claims to repair. */
  predicate ChainAccepts(store: Store, p: Packet) {
    p.cycle == 0
    || (&& p.priorRun.Some? && p.priorRun.value in store
        && var prior := store[p.priorRun.value];
           (&& prior.directive.Some? && prior.phase.RepairDirected?
            && var d := prior.directive.value;
               (&& p.priorDirective == Some(d)
                && d.successorRun == p.run && d.failedRun == p.priorRun.value && d.root == p.root
                && d.goal == p.goal && d.task == p.task
                && d.successorCycle == p.cycle && d.maxCycles == p.maxCycles)))
  }

  datatype Event =
    | Enter(packet: Packet, now: Time)
    | Write(run: RunId, next: ReviewState)

  /** A review is installed once per run, on an accepted packet; afterwards only accepted writes change it. */
  function Apply(store: Store, e: Event): Store {
    match e
    case Enter(packet, now) =>
      if packet.run !in store && ChainAccepts(store, packet) && ValidReviewState(InitialReview(packet, now)) then
        store[packet.run := InitialReview(packet, now)]
      else store
    case Write(run, next) =>
      if run in store && ValidReviewSuccessor(store[run], next) then store[run := next] else store
  }

  function Run(store: Store, events: seq<Event>): Store
    decreases |events|
  {
    if events == [] then store else Apply(Run(store, events[..|events| - 1]), events[|events| - 1])
  }

  predicate Entry(store: Store, run: RunId)
    requires run in store
  {
    && store[run].packet.run == run
    && ValidReviewState(store[run])
    && ChainAccepts(store, store[run].packet)
  }

  predicate Inv(store: Store) { forall run :: run in store ==> Entry(store, run) }

  /** A directed repair stays in the store as it is, so a packet accepted once stays accepted. */
  lemma WritesKeepChains(store: Store, run: RunId, next: ReviewState, p: Packet)
    requires Inv(store) && run in store && ValidReviewSuccessor(store[run], next) && ChainAccepts(store, p)
    ensures ChainAccepts(store[run := next], p)
  {
    if p.cycle != 0 { assert Resolved(store[p.priorRun.value].phase); }
  }

  lemma EventKeepsInv(store: Store, e: Event)
    requires Inv(store)
    ensures Inv(Apply(store, e))
  {
    var after := Apply(store, e);
    forall run | run in after ensures Entry(after, run) {
      match e
      case Enter(packet, now) =>
        if run in store { assert Entry(store, run); }
        hide ValidReviewState;
      case Write(written, next) =>
        if run in store { assert Entry(store, run); }
        if written in store && ValidReviewSuccessor(store[written], next) {
          WritesKeepChains(store, written, next, store[run].packet);
        }
    }
  }

  lemma {:induction false} EveryRunKeepsInv(events: seq<Event>)
    ensures Inv(Run(map[], events))
    decreases |events|
  {
    hide Apply;
    if events != [] {
      EveryRunKeepsInv(events[..|events| - 1]);
      EventKeepsInv(Run(map[], events[..|events| - 1]), events[|events| - 1]);
    }
  }

  // ---------------------------------------------------------------- bounded chains

  predicate SameChain(p: Packet, q: Packet) {
    p.root == q.root && p.goal == q.goal && p.task == q.task && p.maxCycles == q.maxCycles
  }

  /** The i-th run of a chain: cycle i, sharing the first run's root, goal, task and bound, naming its
      predecessor and being its directed successor. */
  predicate LinkAt(store: Store, runs: seq<RunId>, i: int)
    requires 0 <= i < |runs|
  {
    && runs[0] in store && runs[i] in store
    && store[runs[i]].packet.cycle == i
    && SameChain(store[runs[i]].packet, store[runs[0]].packet)
    && (i > 0 ==>
          && store[runs[i]].packet.priorRun == Some(runs[i - 1]) && runs[i - 1] in store
          && store[runs[i - 1]].phase.RepairDirected?
          && store[runs[i - 1]].directive.Some? && store[runs[i - 1]].directive.value.successorRun == runs[i])
  }

  predicate ChainOf(store: Store, runs: seq<RunId>) {
    runs != [] && forall i :: 0 <= i < |runs| ==> LinkAt(store, runs, i)
  }

  /** The run ends a chain from cycle 0, as long as its cycle says. */
  ghost predicate EndsAChain(store: Store, run: RunId)
    requires run in store
  {
    exists runs :: ChainOf(store, runs) && |runs| == store[run].packet.cycle + 1 && runs[|runs| - 1] == run
  }

  lemma PriorIsOneCycleBefore(store: Store, run: RunId)
    requires Inv(store) && run in store && store[run].packet.cycle != 0
    ensures store[run].packet.priorRun.Some? && store[run].packet.priorRun.value in store
    ensures var prior := store[store[run].packet.priorRun.value];
            && prior.packet.cycle == store[run].packet.cycle - 1
            && SameChain(prior.packet, store[run].packet)
            && prior.phase.RepairDirected? && prior.directive.Some? && prior.directive.value.successorRun == run
  {
    assert Entry(store, run);
    assert Entry(store, store[run].packet.priorRun.value);
    hide ValidResolution, ValidPhaseShape, ValidAuditPacket;
  }

  /** Every run in review ends a chain from cycle 0 whose cycles rise by one, with one root, goal, task and
      bound, no longer than the bound allows. */
  lemma {:induction false} EveryRunEndsABoundedChain(store: Store, run: RunId)
    requires Inv(store) && run in store
    ensures 0 <= store[run].packet.cycle <= store[run].packet.maxCycles
    ensures EndsAChain(store, run)
    decreases CycleOf(store, run)
  {
    assert Entry(store, run);
    assert ValidPacket(store[run].packet);
    hide ValidReviewState, ChainAccepts;
    if store[run].packet.cycle == 0 {
      assert LinkAt(store, [run], 0);
      assert ChainOf(store, [run]);
    } else {
      PriorIsOneCycleBefore(store, run);
      var prior := store[run].packet.priorRun.value;
      EveryRunEndsABoundedChain(store, prior);
      var runs :| ChainOf(store, runs) && |runs| == store[prior].packet.cycle + 1 && runs[|runs| - 1] == prior;
      ChainExtends(store, runs, run);
      assert ChainOf(store, runs + [run]) && |runs + [run]| == store[run].packet.cycle + 1;
    }
  }

  function CycleOf(store: Store, run: RunId): nat
    requires run in store
  {
    if store[run].packet.cycle >= 0 then store[run].packet.cycle else 0
  }

  lemma ChainExtends(store: Store, runs: seq<RunId>, run: RunId)
    requires ChainOf(store, runs) && run in store
    requires var last := runs[|runs| - 1];
             && last in store && store[run].packet.priorRun == Some(last)
             && store[run].packet.cycle == store[last].packet.cycle + 1
             && SameChain(store[last].packet, store[run].packet)
             && store[last].phase.RepairDirected? && store[last].directive.Some?
             && store[last].directive.value.successorRun == run
    ensures ChainOf(store, runs + [run])
  {
    var after := runs + [run];
    forall i | 0 <= i < |after| ensures LinkAt(store, after, i) {
      if i < |runs| { assert LinkAt(store, runs, i); } else { assert LinkAt(store, runs, |runs| - 1); }
    }
  }

  /** A failed run has one successor. */
  lemma SuccessorIsUnique(store: Store, a: RunId, b: RunId)
    requires Inv(store) && a in store && b in store
    requires store[a].packet.cycle != 0 && store[b].packet.cycle != 0
    requires store[a].packet.priorRun == store[b].packet.priorRun
    ensures a == b
  {
    PriorIsOneCycleBefore(store, a);
    PriorIsOneCycleBefore(store, b);
  }

  /** Successor ids derived from different failures never meet. */
  lemma DirectedRunsDiffer(a: ReviewState, b: ReviewState)
    requires ValidReviewState(a) && ValidReviewState(b) && a.phase.RepairDirected? && b.phase.RepairDirected?
    requires a.directive.value.successorRun == b.directive.value.successorRun
    ensures a.packet.root == b.packet.root && a.packet.cycle == b.packet.cycle
    ensures a.review.outcome.result == b.review.outcome.result
    ensures a.audit.value.outcome.result == b.audit.value.outcome.result
  {
    hide ValidPacket, SoundReview, SoundAudit, SortedCriteria;
  }

  /** No other run has this run's predecessor. */
  predicate OnlySuccessor(store: Store, run: RunId)
    requires run in store
  {
    forall other ::
      (&& other in store && store[other].packet.cycle != 0 && store[run].packet.cycle != 0
       && store[other].packet.priorRun == store[run].packet.priorRun)
      ==> other == run
  }

  /** Whatever runs are reviewed and repaired, in any order: every run ends a chain of cycles 0, 1, ... with
      one root, goal, task and bound, the bound is kept, and every failed run has one successor. */
  lemma RepairChainsAreBounded(events: seq<Event>, run: RunId)
    requires run in Run(map[], events)
    ensures var store := Run(map[], events);
            && store[run].packet.run == run && store[run].packet.cycle <= store[run].packet.maxCycles
            && EndsAChain(store, run) && OnlySuccessor(store, run)
  {
    EveryRunKeepsInv(events);
    var store := Run(map[], events);
    assert Entry(store, run);
    EveryRunEndsABoundedChain(store, run);
    hide Run, ValidReviewState, ChainAccepts, EndsAChain;
    forall other |
      && other in store && store[other].packet.cycle != 0 && store[run].packet.cycle != 0
      && store[other].packet.priorRun == store[run].packet.priorRun
      ensures other == run
    {
      SuccessorIsUnique(store, other, run);
    }
  }
}
