/** The in-memory brain index cache: a shared index map behind a read-write lock, one rebuild mutex
    per brain, and two counters. Every call of get_or_load is a thread with a program counter; each
    action below is one atomic section of the source (a guard's scope, a mutex acquisition, a counter
    update), and any interleaving of any number of threads is a sequence of actions. */
module BrainCache {
  import opened Common

  type Brain = int
  type Thread = int
  type Index = int

  datatype Pc =
    | Lookup(brain: Brain)                  // before the fast path
    | Hit(brain: Brain, index: Index)       // found, hit not counted yet
    | Missed(brain: Brain)                  // not found, miss not counted yet
    | Waiting(brain: Brain)                 // for the rebuild mutex
    | Recheck(brain: Brain)                 // holds the mutex, second lookup ahead
    | Building(brain: Brain)                // holds the mutex, build running
    | Built(brain: Brain, index: Index)     // holds the mutex, insert ahead
    | Leaving(brain: Brain, index: Index)   // holds the mutex, about to return
    | Returned(brain: Brain, index: Index)
    | Dropped                               // the caller gave up at an await point

  datatype Action =
    | Call(t: Thread, brain: Brain)
    | Step(t: Thread)
    | StepLocked(t: Thread, built: Index)
    | Drop(t: Thread)
    | Invalidate(brain: Brain)
    | OrphanEnds(brain: Brain)

  /** Shared memory and program counters, with history: calls made, calls dropped before they were
      counted, entries inserted and removed, entries ever published, builds left running by a drop. */
  datatype State = State(
    index: map<Brain, Index>,
    holder: map<Brain, Thread>,
    hits: nat,
    misses: nat,
    pcs: map<Thread, Pc>,
    calls: nat,
    abandoned: nat,
    inserted: multiset<Brain>,
    removed: multiset<Brain>,
    published: set<(Brain, Index)>,
    orphans: multiset<Brain>)

  const EMPTY := State(map[], map[], 0, 0, map[], 0, 0, multiset{}, multiset{}, {}, multiset{})

  predicate HoldsMutex(pc: Pc) { pc.Recheck? || pc.Building? || pc.Built? || pc.Leaving? }

  predicate Unsettled(pc: Pc) { pc.Lookup? || pc.Hit? || pc.Missed? }

  function At(s: State, t: Thread, pc: Pc): State { s.(pcs := s.pcs[t := pc]) }

  function Unlock(s: State, brain: Brain): State { s.(holder := s.holder - {brain}) }

  /** The thread's next step outside the rebuild mutex: first lookup, counter, waiting for the mutex. */
  function Advance(s: State, t: Thread): Option<State>
    requires t in s.pcs
  {
    match s.pcs[t]
    case Lookup(brain) =>
      Some(At(s, t, if brain in s.index then Hit(brain, s.index[brain]) else Missed(brain)))
    case Hit(brain, index) => Some(At(s, t, Returned(brain, index)).(hits := s.hits + 1))
    case Missed(brain) => Some(At(s, t, Waiting(brain)).(misses := s.misses + 1))
    case Waiting(brain) =>
      if brain in s.holder then None else Some(At(s, t, Recheck(brain)).(holder := s.holder[brain := t]))
    case _ => None
  }

  /** The thread's next step under the rebuild mutex; `built` is what a finished build produced. */
  function AdvanceLocked(s: State, t: Thread, built: Index): Option<State>
    requires t in s.pcs
  {
    match s.pcs[t]
    case Recheck(brain) =>
      Some(At(s, t, if brain in s.index then Leaving(brain, s.index[brain]) else Building(brain)))
    case Building(brain) => Some(At(s, t, Built(brain, built)))
    case Built(brain, index) =>
      Some(At(s, t, Leaving(brain, index)).(
        index := s.index[brain := index],
        inserted := s.inserted + multiset{brain},
        published := s.published + {(brain, index)}))
    case Leaving(brain, index) => Some(Unlock(At(s, t, Returned(brain, index)), brain))
    case _ => None
  }

  /** The caller drops its call at an await point. A build already handed to the blocking pool goes on. */
  function Abandon(s: State, t: Thread): Option<State>
    requires t in s.pcs
  {
    match s.pcs[t]
    case Lookup(_) => Some(At(s, t, Dropped).(abandoned := s.abandoned + 1))
    case Waiting(_) => Some(At(s, t, Dropped))
    case Recheck(brain) => Some(Unlock(At(s, t, Dropped), brain))
    case Building(brain) => Some(Unlock(At(s, t, Dropped), brain).(orphans := s.orphans + multiset{brain}))
    case Built(brain, _) => Some(Unlock(At(s, t, Dropped), brain))
    case _ => None
  }

  /** The state after an action, if the action is enabled. */
  function Apply(s: State, a: Action): Option<State> {
    match a
    case Call(t, brain) =>
      if t in s.pcs then None else Some(At(s, t, Lookup(brain)).(calls := s.calls + 1))
    case Step(t) => if t in s.pcs then Advance(s, t) else None
    case StepLocked(t, built) => if t in s.pcs then AdvanceLocked(s, t, built) else None
    case Drop(t) => if t in s.pcs then Abandon(s, t) else None
    case Invalidate(brain) =>
      Some(s.(index := s.index - {brain},
              removed := if brain in s.index then s.removed + multiset{brain} else s.removed))
    case OrphanEnds(brain) =>
      if brain in s.orphans then Some(s.(orphans := s.orphans - multiset{brain})) else None
  }

  function Execute(s: State, actions: seq<Action>): Option<State>
    decreases |actions|
  {
    if actions == [] then Some(s)
    else match Apply(s, actions[0]) case None => None case Some(next) => Execute(next, actions[1..])
  }

  // ---- What every interleaving keeps ----

  ghost predicate MutexInv(s: State) {
    (forall b :: b in s.holder ==>
      s.holder[b] in s.pcs && HoldsMutex(s.pcs[s.holder[b]]) && s.pcs[s.holder[b]].brain == b) &&
    (forall t :: t in s.pcs && HoldsMutex(s.pcs[t]) ==>
      s.pcs[t].brain in s.holder && s.holder[s.pcs[t].brain] == t)
  }

  ghost predicate BuildInv(s: State) {
    (forall t :: t in s.pcs && (s.pcs[t].Building? || s.pcs[t].Built?) ==> s.pcs[t].brain !in s.index) &&
    (forall b :: s.inserted[b] == s.removed[b] + if b in s.index then 1 else 0)
  }

  ghost predicate PublishedInv(s: State) {
    (forall b :: b in s.index ==> (b, s.index[b]) in s.published) &&
    (forall t :: t in s.pcs && (s.pcs[t].Hit? || s.pcs[t].Leaving? || s.pcs[t].Returned?) ==>
      (s.pcs[t].brain, s.pcs[t].index) in s.published)
  }

  function UnsettledThreads(s: State): set<Thread> { set t | t in s.pcs && Unsettled(s.pcs[t]) }

  ghost predicate CountInv(s: State) {
    s.hits + s.misses + s.abandoned + |UnsettledThreads(s)| == s.calls
  }

  ghost predicate Inv(s: State) { MutexInv(s) && BuildInv(s) && PublishedInv(s) && CountInv(s) }

  lemma AdvanceKeepsMutex(s: State, t: Thread)
    requires MutexInv(s) && t in s.pcs && Advance(s, t).Some?
    ensures MutexInv(Advance(s, t).value)
  {
  }

  lemma AdvanceKeepsBuilds(s: State, t: Thread)
    requires MutexInv(s) && BuildInv(s) && PublishedInv(s) && t in s.pcs && Advance(s, t).Some?
    ensures BuildInv(Advance(s, t).value) && PublishedInv(Advance(s, t).value)
  {
  }

  lemma AdvanceKeepsCount(s: State, t: Thread)
    requires CountInv(s) && t in s.pcs && Advance(s, t).Some?
    ensures CountInv(Advance(s, t).value)
  {
    var s' := Advance(s, t).value;
    assert UnsettledThreads(s') == if Unsettled(s'.pcs[t]) then UnsettledThreads(s) else UnsettledThreads(s) - {t};
  }

  lemma LockedKeepsMutex(s: State, t: Thread, built: Index)
    requires MutexInv(s) && t in s.pcs && AdvanceLocked(s, t, built).Some?
    ensures MutexInv(AdvanceLocked(s, t, built).value)
  {
  }

  lemma LockedKeepsBuilds(s: State, t: Thread, built: Index)
    requires MutexInv(s) && BuildInv(s) && PublishedInv(s) && t in s.pcs && AdvanceLocked(s, t, built).Some?
    ensures BuildInv(AdvanceLocked(s, t, built).value) && PublishedInv(AdvanceLocked(s, t, built).value)
  {
  }

  lemma LockedKeepsCount(s: State, t: Thread, built: Index)
    requires CountInv(s) && t in s.pcs && AdvanceLocked(s, t, built).Some?
    ensures CountInv(AdvanceLocked(s, t, built).value)
  {
    var s' := AdvanceLocked(s, t, built).value;
    assert UnsettledThreads(s') == UnsettledThreads(s);
  }

  lemma AbandonKeepsMutex(s: State, t: Thread)
    requires MutexInv(s) && t in s.pcs && Abandon(s, t).Some?
    ensures MutexInv(Abandon(s, t).value)
  {
  }

  lemma AbandonKeepsBuilds(s: State, t: Thread)
    requires MutexInv(s) && BuildInv(s) && PublishedInv(s) && t in s.pcs && Abandon(s, t).Some?
    ensures BuildInv(Abandon(s, t).value) && PublishedInv(Abandon(s, t).value)
  {
  }

  lemma AbandonKeepsCount(s: State, t: Thread)
    requires CountInv(s) && t in s.pcs && Abandon(s, t).Some?
    ensures CountInv(Abandon(s, t).value)
  {
    var s' := Abandon(s, t).value;
    assert UnsettledThreads(s') == if s.pcs[t].Lookup? then UnsettledThreads(s) - {t} else UnsettledThreads(s);
  }

  lemma SharedStepKeepsInv(s: State, a: Action)
    requires Inv(s) && Apply(s, a).Some? && !a.Step? && !a.StepLocked? && !a.Drop?
    ensures Inv(Apply(s, a).value)
  {
    hide Advance, AdvanceLocked, Abandon;
    var s' := Apply(s, a).value;
    if a.Call? {
      assert UnsettledThreads(s') == UnsettledThreads(s) + {a.t};
    } else {
      assert s'.pcs == s.pcs && UnsettledThreads(s') == UnsettledThreads(s);
    }
  }

  lemma ActionKeepsInv(s: State, a: Action)
    requires Inv(s) && Apply(s, a).Some?
    ensures Inv(Apply(s, a).value)
  {
    hide Advance, AdvanceLocked, Abandon, MutexInv, BuildInv, PublishedInv, CountInv;
    match a
    case Step(t) => AdvanceKeepsMutex(s, t); AdvanceKeepsBuilds(s, t); AdvanceKeepsCount(s, t);
    case StepLocked(t, built) => LockedKeepsMutex(s, t, built); LockedKeepsBuilds(s, t, built); LockedKeepsCount(s, t, built);
    case Drop(t) => AbandonKeepsMutex(s, t); AbandonKeepsBuilds(s, t); AbandonKeepsCount(s, t);
    case _ => SharedStepKeepsInv(s, a);
  }

  lemma {:induction false} EveryRunKeepsInv(s: State, actions: seq<Action>)
    requires Inv(s) && Execute(s, actions).Some?
    ensures Inv(Execute(s, actions).value)
    decreases |actions|
  {
    if actions != [] {
      ActionKeepsInv(s, actions[0]);
      EveryRunKeepsInv(Apply(s, actions[0]).value, actions[1..]);
    }
  }

  // ---- The promises, for any interleaving from the empty cache ----

  ghost predicate Reachable(s: State) { exists actions :: Execute(EMPTY, actions) == Some(s) }

  lemma {:induction false} ReachableHasInv(s: State)
    requires Reachable(s)
    ensures Inv(s)
  {
    var actions :| Execute(EMPTY, actions) == Some(s);
    assert UnsettledThreads(EMPTY) == {};
    EveryRunKeepsInv(EMPTY, actions);
  }

  /** No two calls are ever past the rebuild mutex of one brain, so at most one call builds it. */
  lemma SingleFlight(s: State, t: Thread, u: Thread)
    requires Reachable(s)
    requires t in s.pcs && u in s.pcs && HoldsMutex(s.pcs[t]) && HoldsMutex(s.pcs[u])
    requires s.pcs[t].brain == s.pcs[u].brain
    ensures t == u
  {
    ReachableHasInv(s);
  }

  /** Inserts are conserved: each is still in the map or was undone by an invalidation that removed
      it. A brain is therefore built into the map at most once more than it was removed. */
  lemma InsertsBalanceRemovals(s: State, brain: Brain)
    requires Reachable(s)
    ensures s.inserted[brain] == s.removed[brain] + if brain in s.index then 1 else 0
    ensures s.inserted[brain] <= s.removed[brain] + 1
  {
    ReachableHasInv(s);
  }

  /** Once every first lookup is counted, hits and misses add up to the calls not dropped before. */
  lemma CountersAccountForCalls(s: State)
    requires Reachable(s)
    requires forall t {:trigger s.pcs[t]} :: t in s.pcs ==> !Unsettled(s.pcs[t])
    ensures s.hits + s.misses == s.calls - s.abandoned
  {
    ReachableHasInv(s);
    forall t ensures t !in UnsettledThreads(s) {
      if t in s.pcs { assert !Unsettled(s.pcs[t]); }
    }
    assert UnsettledThreads(s) == {};
  }

  /** A call only ever returns an index some build inserted for the same brain. */
  lemma ReturnsPublishedIndex(s: State, t: Thread)
    requires Reachable(s) && t in s.pcs && s.pcs[t].Returned?
    ensures (s.pcs[t].brain, s.pcs[t].index) in s.published
  {
    ReachableHasInv(s);
  }

  // ---- Builds that go on after their caller has gone ----

  function Builders(s: State, brain: Brain): set<Thread> {
    set t | t in s.pcs && s.pcs[t] == Building(brain)
  }

  /** Builds of a brain running now: those of live calls, and those whose caller was dropped. */
  function BuildsInProgress(s: State, brain: Brain): nat { |Builders(s, brain)| + s.orphans[brain] }

  lemma OneBuilderAtMost(s: State, brain: Brain)
    requires MutexInv(s)
    ensures |Builders(s, brain)| <= 1
  {
    var builders := Builders(s, brain);
    if brain in s.holder {
      var t := s.holder[brain];
      forall u | u in builders ensures u == t {}
      if s.pcs[t] == Building(brain) { assert builders == {t}; } else { assert builders == {}; }
    } else {
      forall u ensures u !in builders {}
      assert builders == {};
    }
  }

  /** Over every run, the only builds beyond one are those of dropped callers. */
  lemma BuildsAreBounded(s: State, brain: Brain)
    requires Reachable(s)
    ensures BuildsInProgress(s, brain) <= 1 + s.orphans[brain]
  {
    ReachableHasInv(s);
    OneBuilderAtMost(s, brain);
  }

  /** The action starts a build: the second lookup, under the mutex, found nothing. */
  predicate StartsBuild(s: State, a: Action, brain: Brain) {
    a.StepLocked? && a.t in s.pcs && s.pcs[a.t] == Recheck(brain) && brain !in s.index
  }

  /** It does so while the build of a dropped caller still runs. */
  predicate Overtakes(s: State, a: Action, brain: Brain) { StartsBuild(s, a, brain) && brain in s.orphans }

  lemma LockedStepBuilds(s: State, t: Thread, built: Index, brain: Brain)
    requires MutexInv(s) && t in s.pcs && AdvanceLocked(s, t, built).Some?
    ensures var n := AdvanceLocked(s, t, built).value;
            n.orphans == s.orphans
            && Builders(n, brain) == (if StartsBuild(s, StepLocked(t, built), brain) then Builders(s, brain) + {t}
                                      else Builders(s, brain) - {t})
  {
  }

  lemma DropBuilds(s: State, t: Thread, brain: Brain)
    requires MutexInv(s) && t in s.pcs && Abandon(s, t).Some?
    ensures var n := Abandon(s, t).value;
            && Builders(n, brain) == Builders(s, brain) - {t}
            && n.orphans[brain] == s.orphans[brain] + (if s.pcs[t] == Building(brain) then 1 else 0)
  {
  }

  lemma OtherActionsBuild(s: State, a: Action, brain: Brain)
    requires Apply(s, a).Some? && !a.StepLocked? && !a.Drop?
    ensures var n := Apply(s, a).value;
            Builders(n, brain) == Builders(s, brain) && n.orphans[brain] <= s.orphans[brain]
  {
    hide AdvanceLocked, Abandon;
  }

  /** Only an overtaking start makes a second build, and it always does. */
  lemma ActionBuilds(s: State, a: Action, brain: Brain)
    requires Inv(s) && Apply(s, a).Some? && BuildsInProgress(s, brain) <= 1
    ensures BuildsInProgress(Apply(s, a).value, brain) <= 1 <==> !Overtakes(s, a, brain)
  {
    hide Advance, AdvanceLocked, Abandon, Builders, BuildInv, PublishedInv, CountInv;
    OneBuilderAtMost(s, brain);
    var n := Apply(s, a).value;
    OneBuilderAtMost(n, brain) by { ActionKeepsInv(s, a); }
    match a
    case StepLocked(t, built) => LockedStepBuilds(s, t, built, brain); BuilderIsListed(s, t, brain);
    case Drop(t) => DropBuilds(s, t, brain); BuilderIsListed(s, t, brain);
    case _ => OtherActionsBuild(s, a, brain);
  }

  lemma BuilderIsListed(s: State, t: Thread, brain: Brain)
    requires t in s.pcs
    ensures t in Builders(s, brain) <==> s.pcs[t] == Building(brain)
    ensures MutexInv(s) && s.pcs[t] == Recheck(brain) ==> Builders(s, brain) == {}
    ensures t in Builders(s, brain) ==> |Builders(s, brain) - {t}| == |Builders(s, brain)| - 1
    ensures t !in Builders(s, brain) ==> Builders(s, brain) - {t} == Builders(s, brain)
  {
    if MutexInv(s) && s.pcs[t] == Recheck(brain) {
      forall u ensures u !in Builders(s, brain) {}
      assert Builders(s, brain) == {};
    }
  }

  /** No state on the way has two builds of the brain. */
  ghost predicate NeverTwoBuilds(s: State, actions: seq<Action>, brain: Brain)
    requires Execute(s, actions).Some?
    decreases |actions|
  {
    && BuildsInProgress(s, brain) <= 1
    && (actions != [] ==> NeverTwoBuilds(Apply(s, actions[0]).value, actions[1..], brain))
  }

  /** No action on the way overtakes. */
  predicate NeverOvertakes(s: State, actions: seq<Action>, brain: Brain)
    requires Execute(s, actions).Some?
    decreases |actions|
  {
    actions != [] ==>
      !Overtakes(s, actions[0], brain) && NeverOvertakes(Apply(s, actions[0]).value, actions[1..], brain)
  }

  lemma {:induction false} NeverTwoBuildsIff(s: State, actions: seq<Action>, brain: Brain)
    requires Inv(s) && Execute(s, actions).Some? && BuildsInProgress(s, brain) <= 1
    ensures NeverTwoBuilds(s, actions, brain) <==> NeverOvertakes(s, actions, brain)
    decreases |actions|
  {
    if actions != [] {
      var n := Apply(s, actions[0]).value;
      ActionBuilds(s, actions[0], brain);
      ActionKeepsInv(s, actions[0]);
      hide Inv, Apply, BuildsInProgress, Overtakes;
      if !Overtakes(s, actions[0], brain) { NeverTwoBuildsIff(n, actions[1..], brain); }
      else { TwoBuildsNow(n, actions[1..], brain); }
    }
  }

  lemma TwoBuildsNow(s: State, actions: seq<Action>, brain: Brain)
    requires Execute(s, actions).Some? && !(BuildsInProgress(s, brain) <= 1)
    ensures !NeverTwoBuilds(s, actions, brain)
  {
  }

  /** Single flight of builds, exactly: over a run from the empty cache no two builds of a brain are ever in
      progress at once if and only if no build starts while that of a dropped caller still runs. */
  lemma BuildsFlySinglyIff(actions: seq<Action>, brain: Brain)
    requires Execute(EMPTY, actions).Some?
    ensures NeverTwoBuilds(EMPTY, actions, brain) <==> NeverOvertakes(EMPTY, actions, brain)
  {
    assert UnsettledThreads(EMPTY) == {} && Builders(EMPTY, brain) == {};
    NeverTwoBuildsIff(EMPTY, actions, brain);
  }

  /** No caller is dropped while it builds the brain. */
  predicate NeverDropsBuilder(s: State, actions: seq<Action>, brain: Brain)
    requires Execute(s, actions).Some?
    decreases |actions|
  {
    actions != [] ==>
      && !(actions[0].Drop? && actions[0].t in s.pcs && s.pcs[actions[0].t] == Building(brain))
      && NeverDropsBuilder(Apply(s, actions[0]).value, actions[1..], brain)
  }

  lemma {:induction false} WithoutDropsNoOvertaking(s: State, actions: seq<Action>, brain: Brain)
    requires Execute(s, actions).Some? && brain !in s.orphans && NeverDropsBuilder(s, actions, brain)
    ensures NeverOvertakes(s, actions, brain)
    decreases |actions|
  {
    if actions != [] {
      assert brain !in Apply(s, actions[0]).value.orphans;
      WithoutDropsNoOvertaking(Apply(s, actions[0]).value, actions[1..], brain);
    }
  }

  /** What callers can see to: as long as no call is dropped during its build, builds fly singly. */
  lemma PatientCallersFlySingly(actions: seq<Action>, brain: Brain)
    requires Execute(EMPTY, actions).Some? && NeverDropsBuilder(EMPTY, actions, brain)
    ensures NeverTwoBuilds(EMPTY, actions, brain)
  {
    WithoutDropsNoOvertaking(EMPTY, actions, brain);
    BuildsFlySinglyIff(actions, brain);
  }

  /** Dropping a call during its build frees the mutex while the build keeps running, so two builds
      of one brain can then be in progress: single flight holds among the calls, not for dropped ones. */
  lemma DropAllowsSecondBuild(brain: Brain)
    ensures exists s: State :: Reachable(s) && BuildsInProgress(s, brain) == 2
  {
    hide Execute;
    var s1 := FreshCallBuilds(EMPTY, 0, brain);
    var s2 := Apply(s1, Drop(0)).value;
    var s3 := FreshCallBuilds(s2, 1, brain);
    ExecuteCons(s1, Drop(0), BuildPath(1, brain));
    ExecuteConcat(EMPTY, BuildPath(0, brain), [Drop(0)] + BuildPath(1, brain));
    assert Execute(EMPTY, BuildPath(0, brain) + ([Drop(0)] + BuildPath(1, brain))) == Some(s3);
    assert Builders(s3, brain) == {1};
    assert s3.orphans[brain] == 1;
    assert Reachable(s3) && BuildsInProgress(s3, brain) == 2;
  }

  function BuildPath(t: Thread, brain: Brain): seq<Action> {
    [Call(t, brain)] + ([Step(t)] + ([Step(t)] + ([Step(t)] + [StepLocked(t, 0)])))
  }

  lemma ExecuteCons(s: State, a: Action, rest: seq<Action>)
    ensures Execute(s, [a] + rest) == (match Apply(s, a) case None => None case Some(next) => Execute(next, rest))
  {
    assert ([a] + rest)[1..] == rest;
  }

  lemma ExecuteOne(s: State, a: Action)
    ensures Execute(s, [a]) == Apply(s, a)
  {
    assert [a][1..] == [];
  }

  lemma FreshCallBuilds(s: State, t: Thread, brain: Brain) returns (end: State)
    requires t !in s.pcs && brain !in s.index && brain !in s.holder
    ensures Execute(s, BuildPath(t, brain)) == Some(end)
    ensures end == At(s, t, Building(brain)).(
      holder := s.holder[brain := t], misses := s.misses + 1, calls := s.calls + 1)
  {
    hide Execute;
    var s1 := Apply(s, Call(t, brain)).value;
    var s2 := Apply(s1, Step(t)).value;
    var s3 := Apply(s2, Step(t)).value;
    var s4 := Apply(s3, Step(t)).value;
    end := Apply(s4, StepLocked(t, 0)).value;
    ExecuteOne(s4, StepLocked(t, 0));
    ExecuteCons(s3, Step(t), [StepLocked(t, 0)]);
    ExecuteCons(s2, Step(t), [Step(t)] + [StepLocked(t, 0)]);
    ExecuteCons(s1, Step(t), [Step(t)] + ([Step(t)] + [StepLocked(t, 0)]));
    ExecuteCons(s, Call(t, brain), [Step(t)] + ([Step(t)] + ([Step(t)] + [StepLocked(t, 0)])));
    assert end.pcs == s.pcs[t := Building(brain)];
  }

  lemma {:induction false} ExecuteConcat(s: State, left: seq<Action>, right: seq<Action>)
    requires Execute(s, left).Some?
    ensures Execute(s, left + right) == Execute(Execute(s, left).value, right)
    decreases |left|
  {
    if left == [] {
      assert left + right == right;
    } else {
      ConcatRest(left, right);
      ExecuteConcat(Apply(s, left[0]).value, left[1..], right);
    }
  }

  /** The actions take thread 0 from `s` through a whole call that returns `r` and leaves memory as in `end`. */
  ghost predicate ReachesReturn(s: State, actions: seq<Action>, end: State, brain: Brain, r: Index) {
    match Execute(s, actions)
    case None => false
    case Some(last) =>
      0 in last.pcs && last.pcs[0] == Returned(brain, r) &&
      last.index == end.index && last.hits == end.hits && last.misses == end.misses
  }

  // ---- The cache object: one call run to its end without interference ----

  class Cache {
    var index: map<Brain, Index>
    var hitCount: nat
    var missCount: nat

    constructor ()
      ensures index == map[] && hitCount == 0 && missCount == 0
    {
      index, hitCount, missCount := map[], 0, 0;
    }

    ghost function View(): State
      reads this
    {
      EMPTY.(index := index, hits := hitCount, misses := missCount)
    }

    /** `built` is what build_index_sync would read from disk now. */
    method GetOrLoad(brain: Brain, built: Index) returns (r: Index)
      modifies this
      ensures r == if brain in old(index) then old(index[brain]) else built
      ensures index == old(index)[brain := r]
      ensures hitCount == old(hitCount) + (if brain in old(index) then 1 else 0)
      ensures missCount == old(missCount) + (if brain in old(index) then 0 else 1)
      ensures exists actions :: ReachesReturn(old(View()), actions, View(), brain, r)
    {
      hide Execute;
      if brain in index {
        SoloHit(View(), 0, brain);
        hitCount := hitCount + 1;
        r := index[brain];
        assert ReachesReturn(old(View()), HitPath(0, brain), View(), brain, r);
      } else {
        ghost var end := SoloMiss(View(), 0, brain, built);
        missCount := missCount + 1;
        index := index[brain := built];
        r := built;
        assert ReachesReturn(old(View()), HitPath(0, brain) + RebuildPath(0, built), View(), brain, r);
      }
    }

    method InvalidateBrain(brain: Brain)
      modifies this
      ensures index == old(index) - {brain}
      ensures hitCount == old(hitCount) && missCount == old(missCount)
    {
      index := index - {brain};
    }
  }

  function HitPath(t: Thread, brain: Brain): seq<Action> { [Call(t, brain)] + ([Step(t)] + [Step(t)]) }

  lemma SoloHit(s: State, t: Thread, brain: Brain)
    requires t !in s.pcs
    ensures Execute(s, HitPath(t, brain)) ==
      Some(At(s, t, if brain in s.index then Returned(brain, s.index[brain]) else Waiting(brain)).(
        calls := s.calls + 1,
        hits := s.hits + (if brain in s.index then 1 else 0),
        misses := s.misses + (if brain in s.index then 0 else 1)))
  {
    hide Execute;
    var s1 := Apply(s, Call(t, brain)).value;
    var s2 := Apply(s1, Step(t)).value;
    var s3 := Apply(s2, Step(t)).value;
    ExecuteOne(s2, Step(t));
    ExecuteCons(s1, Step(t), [Step(t)]);
    ExecuteCons(s, Call(t, brain), [Step(t)] + [Step(t)]);
    assert s3.pcs == s.pcs[t := s3.pcs[t]];
  }

  lemma SoloMiss(s: State, t: Thread, brain: Brain, built: Index) returns (end: State)
    requires t !in s.pcs && brain !in s.index && brain !in s.holder
    ensures Execute(s, HitPath(t, brain) + RebuildPath(t, built)) == Some(end)
    ensures t in end.pcs && end.pcs[t] == Returned(brain, built)
    ensures end.index == s.index[brain := built] && end.hits == s.hits && end.misses == s.misses + 1
  {
    hide Execute;
    SoloHit(s, t, brain);
    var counted := Execute(s, HitPath(t, brain)).value;
    end := SoloRebuild(counted, t, brain, built);
    ExecuteConcat(s, HitPath(t, brain), RebuildPath(t, built));
  }

  function RebuildPath(t: Thread, built: Index): seq<Action> {
    [Step(t)] + ([StepLocked(t, 0)] + ([StepLocked(t, built)] + ([StepLocked(t, 0)] + [StepLocked(t, 0)])))
  }

  /** With nobody else running, a counted miss takes the mutex, builds, inserts and returns. */
  lemma SoloRebuild(s: State, t: Thread, brain: Brain, built: Index) returns (end: State)
    requires t in s.pcs && s.pcs[t] == Waiting(brain) && brain !in s.holder && brain !in s.index
    ensures Execute(s, RebuildPath(t, built)) == Some(end)
    ensures t in end.pcs && end.pcs[t] == Returned(brain, built)
    ensures end.index == s.index[brain := built] && end.hits == s.hits && end.misses == s.misses
  {
    hide Execute;
    var s1 := Apply(s, Step(t)).value;
    var s2 := Apply(s1, StepLocked(t, 0)).value;
    var s3 := Apply(s2, StepLocked(t, built)).value;
    var s4 := Apply(s3, StepLocked(t, 0)).value;
    end := Apply(s4, StepLocked(t, 0)).value;
    ExecuteOne(s4, StepLocked(t, 0));
    ExecuteCons(s3, StepLocked(t, 0), [StepLocked(t, 0)]);
    ExecuteCons(s2, StepLocked(t, built), [StepLocked(t, 0)] + [StepLocked(t, 0)]);
    ExecuteCons(s1, StepLocked(t, 0), [StepLocked(t, built)] + ([StepLocked(t, 0)] + [StepLocked(t, 0)]));
    ExecuteCons(s, Step(t), [StepLocked(t, 0)] + ([StepLocked(t, built)] + ([StepLocked(t, 0)] + [StepLocked(t, 0)])));
  }
}
