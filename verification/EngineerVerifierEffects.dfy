/** Write-ahead effects: over every run the files of the leased root are the initial files with the
    ledger's writes replayed in order, or those with the one prepared write applied. The diff bridge
    handed to the verifier changes exactly what the ledger wrote. */
module EngineerVerifierEffects {
  import opened Common
  import opened WorkspaceFiles
  import opened RuntimeTypes
  import opened EngineerVerifierKernel
  import opened EngineerVerifierCommands
  import opened EngineerVerifierRuns
  import opened EngineerVerifierOutbox

  // ---------------------------------------------------------------- replaying the ledger

  function WrittenFile(effect: Effect): File
    requires effect.WriteFile?
  {
    File(effect.path, effect.content)
  }

  function WrittenSnapshot(s: Snapshot, file: File): Snapshot {
    Snapshot(s.lease, s.generation + 1, WrittenFiles(s.files, file))
  }

  /** The initial snapshot with every successful write of the ledger applied, in order. */
  function Replayed(effects: seq<Effect>, ledger: seq<Entry>, initial: Snapshot): Snapshot
    requires |ledger| <= |effects|
  {
    if ledger == [] then initial
    else
      var k := |ledger| - 1;
      var before := Replayed(effects, ledger[..k], initial);
      if Wrote(ledger[k]) && effects[k].WriteFile? then WrittenSnapshot(before, WrittenFile(effects[k])) else before
  }

  /** Writes are recorded only for write effects, and each one changed its file. */
  predicate RealWrite(effects: seq<Effect>, ledger: seq<Entry>, initial: Snapshot, i: int)
    requires 0 <= i < |ledger| <= |effects|
  {
    Wrote(ledger[i]) ==>
      && effects[i].WriteFile?
      && Lookup(Replayed(effects, ledger[..i], initial).files, effects[i].path) != Some(WrittenFile(effects[i]))
  }

  predicate LedgerExplains(s: EvState, w: Workspace) {
    && |s.ledger| <= |s.plan.effects|
    && w.current == Replayed(s.plan.effects, s.ledger, w.initial)
    && (forall i :: 0 <= i < |s.ledger| ==> RealWrite(s.plan.effects, s.ledger, w.initial, i))
  }

  lemma ReplayedAppend(effects: seq<Effect>, ledger: seq<Entry>, e: Entry, initial: Snapshot)
    requires |ledger| < |effects|
    ensures var before := Replayed(effects, ledger, initial);
            Replayed(effects, ledger + [e], initial)
            == if Wrote(e) && effects[|ledger|].WriteFile? then WrittenSnapshot(before, WrittenFile(effects[|ledger|])) else before
  {
    assert (ledger + [e])[..|ledger|] == ledger;
  }

  lemma RealWritesAppend(effects: seq<Effect>, ledger: seq<Entry>, e: Entry, initial: Snapshot)
    requires |ledger| < |effects|
    requires forall i :: 0 <= i < |ledger| ==> RealWrite(effects, ledger, initial, i)
    requires Wrote(e) ==>
               && effects[|ledger|].WriteFile?
               && Lookup(Replayed(effects, ledger, initial).files, effects[|ledger|].path)
                  != Some(WrittenFile(effects[|ledger|]))
    ensures forall i :: 0 <= i < |ledger| + 1 ==> RealWrite(effects, ledger + [e], initial, i)
  {
    forall i | 0 <= i < |ledger| + 1 ensures RealWrite(effects, ledger + [e], initial, i) {
      assert (ledger + [e])[..i] == ledger[..i];
      if i < |ledger| {
        assert RealWrite(effects, ledger, initial, i);
      } else {
        assert ledger[..i] == ledger;
      }
    }
  }

  // ---------------------------------------------------------------- what one write does to the workspace

  predicate TouchesEffects(cmd: Command) {
    || cmd.RecordReceipt? || cmd.RecordReconciled? || cmd.PrepareWrite? || cmd.DropPrepared? || cmd.ClaimRetry?
    || cmd.CloseWorkspace?
  }

  predicate SameFiles(w: Workspace, v: Workspace) {
    w.token == v.token && w.initial == v.initial && w.current == v.current && w.closed == v.closed
  }

  lemma UntouchedEffects(s: EvState, cmd: Command)
    requires Enabled(s, cmd) && !TouchesEffects(cmd)
    ensures var n := Next(s, cmd);
            && n.plan == s.plan && n.ledger == s.ledger && n.prepared == s.prepared
            && n.workspace.Some? == s.workspace.Some?
            && (s.workspace.Some? ==> SameFiles(s.workspace.value, n.workspace.value))
  {
  }

  /** The prepared write of a valid state is the next planned write, on the current files, and changes them. */
  lemma PreparedIsTheNextWrite(s: EvState)
    requires ValidState(s) && s.prepared.Some?
    ensures var p := s.prepared.value;
            && s.workspace.Some? && |s.ledger| < |s.plan.effects|
            && s.plan.effects[|s.ledger|].WriteFile?
            && p.file == WrittenFile(s.plan.effects[|s.ledger|])
            && p.before == s.workspace.value.current
            && p.after == WrittenSnapshot(p.before, p.file)
            && Lookup(p.before.files, p.file.path) != Some(p.file)
            && p.ordinal == |s.ledger|
  {
    var p := s.prepared.value;
    assert ValidPrepared(p) && PreparedFits(s, p);
    PreparedListIsExact(p.before.files, p.file);
  }

  /** A store never drops a prepared write without a ledger entry: the write that would abandon it after a
      cancellation is refused, always. */
  lemma DroppingAPreparedWriteIsRefused(s: EvState, now: Time)
    requires Enabled(s, DropPrepared(now))
    ensures !ValidSuccessor(s, Next(s, DropPrepared(now)))
  {
    assert !ValidPreparedSuccessor(s, Next(s, DropPrepared(now)));
  }

  // ---------------------------------------------------------------- the invariant

  /** The root's files are what the ledger explains, or that with the prepared write applied. */
  predicate RootExplained(roots: map<Id, seq<File>>, s: EvState, w: Workspace) {
    w.token in roots && !w.closed ==>
      || roots[w.token] == w.current.files
      || (s.prepared.Some? && roots[w.token] == s.prepared.value.after.files)
  }

  /** What a driver was told about the root is still so. */
  predicate NoteHolds(w: World, d: DriverId)
    requires d in w.drivers
  {
    var note := w.drivers[d].note;
    && (note.Opened? ==> note.root.token in w.roots && w.roots[note.root.token] == note.root.files)
    && (note.Executed? && w.drivers[d].owns && w.state.Some? && w.state.value.workspace.Some? ==>
          var s, v := w.state.value, w.state.value.workspace.value;
          v.token in w.roots && !v.closed ==>
            w.roots[v.token] == if note.denied || s.prepared.None? then v.current.files else s.prepared.value.after.files)
    && (note == Inspected(IntendedAfter) && w.drivers[d].owns && w.state.Some? && w.state.value.workspace.Some?
        && w.state.value.prepared.Some? ==>
          var s, v := w.state.value, w.state.value.workspace.value;
          v.token in w.roots && !v.closed ==> w.roots[v.token] == s.prepared.value.after.files)
  }

  predicate Adopting(w: World) {
    w.state.None? || (w.state.value.phase.RetryPending? && Closed(w.state.value))
  }

  predicate EffectsInv(w: World) {
    && Snapshots(w)
    && (forall d :: d in w.drivers && Current(w, d) ==> NoteHolds(w, d))
    && (forall d :: d in w.drivers && Current(w, d) && w.drivers[d].note.Opened? ==> Adopting(w))
    && (forall d :: d in w.drivers && w.drivers[d].note.Opened? ==> w.drivers[d].note.root.token in w.roots)
    && (forall d, e ::
          (d in w.drivers && e in w.drivers && Current(w, d) && Current(w, e)
           && HoldsLease(w.drivers[d]) && HoldsLease(w.drivers[e]))
          ==> d == e)
    && (w.state.Some? ==> ValidState(w.state.value) && StateExplained(w.roots, w.state.value))
  }

  // ---------------------------------------------------------------- writes

  /** What a write must leave of the state, given what its driver was told. */
  predicate StateExplained(roots: map<Id, seq<File>>, s: EvState) {
    s.workspace.Some? ==> LedgerExplains(s, s.workspace.value) && RootExplained(roots, s, s.workspace.value)
  }

  lemma UntouchedStaysExplained(roots: map<Id, seq<File>>, s: EvState, cmd: Command)
    requires Enabled(s, cmd) && !TouchesEffects(cmd) && StateExplained(roots, s)
    ensures StateExplained(roots, Next(s, cmd))
  {
    hide Next, Enabled, Replayed, RealWrite;
    UntouchedEffects(s, cmd);
  }

  lemma CloseStaysExplained(roots: map<Id, seq<File>>, s: EvState)
    requires Enabled(s, CloseWorkspace) && StateExplained(roots, s)
    ensures StateExplained(roots, Next(s, CloseWorkspace))
  {
    hide Replayed, RealWrite;
  }

  lemma PrepareStaysExplained(roots: map<Id, seq<File>>, s: EvState, now: Time)
    requires Enabled(s, PrepareWrite(now)) && StateExplained(roots, s)
    ensures StateExplained(roots, Next(s, PrepareWrite(now)))
  {
    hide Replayed, RealWrite;
  }

  /** One more entry: the ledger still explains the current files. */
  lemma LedgerGrows(s: EvState, w: Workspace, n: EvState, v: Workspace, e: Entry)
    requires LedgerExplains(s, w) && |s.ledger| < |s.plan.effects|
    requires n.plan == s.plan && n.ledger == s.ledger + [e] && v.initial == w.initial
    requires Wrote(e) ==>
               && s.plan.effects[|s.ledger|].WriteFile?
               && Lookup(w.current.files, s.plan.effects[|s.ledger|].path) != Some(WrittenFile(s.plan.effects[|s.ledger|]))
               && v.current == WrittenSnapshot(w.current, WrittenFile(s.plan.effects[|s.ledger|]))
    requires !Wrote(e) ==> v.current == w.current
    ensures LedgerExplains(n, v)
  {
    ReplayedAppend(s.plan.effects, s.ledger, e, w.initial);
    RealWritesAppend(s.plan.effects, s.ledger, e, w.initial);
    hide Replayed, RealWrite, WrittenSnapshot, Lookup;
  }

  lemma ReceiptStaysExplained(roots: map<Id, seq<File>>, s: EvState, denied: bool, now: Time)
    requires ValidState(s) && Enabled(s, RecordReceipt(denied, now)) && StateExplained(roots, s)
    requires s.workspace.value.token in roots ==>
               roots[s.workspace.value.token]
               == if denied || s.prepared.None? then s.workspace.value.current.files else s.prepared.value.after.files
    ensures StateExplained(roots, Next(s, RecordReceipt(denied, now)))
  {
    hide ValidState, LedgerExplains, WrittenSnapshot, Lookup;
    if s.prepared.Some? { PreparedIsTheNextWrite(s); }
    assert Next(s, RecordReceipt(denied, now)) == WithReceipt(s, denied, now);
    var n := WithReceipt(s, denied, now);
    hide Next;
    LedgerGrows(s, s.workspace.value, n, n.workspace.value, ReceiptEntry(s, denied));
  }

  lemma ReconcileStaysExplained(roots: map<Id, seq<File>>, s: EvState, now: Time)
    requires ValidState(s) && Enabled(s, RecordReconciled(now)) && StateExplained(roots, s)
    requires s.workspace.value.token in roots ==>
               roots[s.workspace.value.token] == s.prepared.value.after.files
    ensures StateExplained(roots, Next(s, RecordReconciled(now)))
  {
    hide ValidState, LedgerExplains, WrittenSnapshot, Lookup;
    PreparedIsTheNextWrite(s);
    assert Next(s, RecordReconciled(now)) == WithReconciled(s, now);
    var n := WithReconciled(s, now);
    hide Next;
    LedgerGrows(s, s.workspace.value, n, n.workspace.value, ReconciledEntry(s.prepared.value));
  }

  lemma RetryIsExplained(roots: map<Id, seq<File>>, s: EvState, root: Lease, now: Time)
    requires Enabled(s, ClaimRetry(root, now))
    requires root.token in roots ==> roots[root.token] == root.files
    ensures StateExplained(roots, Next(s, ClaimRetry(root, now)))
  {
  }

  lemma ClaimIsExplained(roots: map<Id, seq<File>>, plan: Plan, root: Lease, cursor: Option<Cursor>, now: Time)
    requires root.token in roots ==> roots[root.token] == root.files
    ensures StateExplained(roots, Claimed(plan, root, cursor, now))
  {
  }

  /** What the driver of a recording write was told about the root, in terms of the state. */
  predicate RootAsTold(roots: map<Id, seq<File>>, s: EvState, cmd: Command)
    requires Enabled(s, cmd)
  {
    match cmd
    case RecordReceipt(denied, _) =>
      s.workspace.value.token in roots ==>
        roots[s.workspace.value.token]
        == if denied || s.prepared.None? then s.workspace.value.current.files else s.prepared.value.after.files
    case RecordReconciled(_) =>
      s.workspace.value.token in roots ==> roots[s.workspace.value.token] == s.prepared.value.after.files
    case ClaimRetry(root, _) => root.token in roots ==> roots[root.token] == root.files
    case _ => true
  }

  lemma NoteAtCommit(w: World, d: DriverId, cmd: Command)
    requires CommitApplies(w, d, cmd)
    ensures Current(w, d) && w.state.Some?
    ensures cmd.RecordReceipt? ==> w.drivers[d].owns && w.drivers[d].note == Executed(cmd.denied)
    ensures cmd.RecordReconciled? ==> w.drivers[d].owns && w.drivers[d].note == Inspected(IntendedAfter)
    ensures cmd.ClaimRetry? ==> w.drivers[d].note == Opened(cmd.root)
  {
    hide Accepted;
  }

  lemma RecordingNeedsTheWorkspace(s: EvState, cmd: Command)
    requires Enabled(s, cmd)
    ensures cmd.RecordReceipt? || cmd.RecordReconciled? ==> s.workspace.Some? && !s.workspace.value.closed
    ensures cmd.RecordReconciled? ==> s.prepared.Some?
  {
    hide NextEffect, NextIsWrite, HasCompleted;
  }

  lemma NoteOfCurrent(w: World, d: DriverId)
    requires EffectsInv(w) && Current(w, d)
    ensures NoteHolds(w, d)
  {
    hide NoteHolds, ValidState, StateExplained;
  }

  lemma RootIsAsTold(w: World, d: DriverId, cmd: Command)
    requires EffectsInv(w) && CommitApplies(w, d, cmd) && Enabled(w.state.value, cmd)
    ensures RootAsTold(w.roots, w.state.value, cmd)
  {
    hide CommitApplies, EffectsInv, Enabled, ValidState, StateExplained;
    NoteAtCommit(w, d, cmd);
    NoteOfCurrent(w, d);
    RecordingNeedsTheWorkspace(w.state.value, cmd);
  }

  /** An applied write leaves the roots explained: what a receipt or a reconciliation records is what the
      driver was told, and a prepared write is never dropped. */
  lemma AcceptedStaysExplained(roots: map<Id, seq<File>>, s: EvState, cmd: Command)
    requires ValidState(s) && Enabled(s, cmd) && StateExplained(roots, s) && RootAsTold(roots, s, cmd)
    requires ValidSuccessor(s, Next(s, cmd))
    ensures StateExplained(roots, Next(s, cmd))
  {
    hide StateExplained, ValidState, Next, ValidSuccessor, NextEffect, NextIsWrite;
    match cmd
    case RecordReceipt(denied, now) => ReceiptStaysExplained(roots, s, denied, now);
    case RecordReconciled(now) => ReconcileStaysExplained(roots, s, now);
    case PrepareWrite(now) => PrepareStaysExplained(roots, s, now);
    case DropPrepared(now) => DroppingAPreparedWriteIsRefused(s, now);
    case ClaimRetry(root, now) => RetryIsExplained(roots, s, root, now);
    case CloseWorkspace => CloseStaysExplained(roots, s);
    case _ => UntouchedStaysExplained(roots, s, cmd);
  }

  /** After a write only its driver has the present state, and it was told nothing about the root yet. */
  lemma WrittenIsExplained(w: World, d: DriverId, n: EvState, driver: Driver, events: seq<RunEvent>)
    requires EffectsInv(w) && ValidState(n) && StateExplained(w.roots, n)
    requires driver.revision == w.revision + 1 && driver.state == Some(n)
    requires !driver.note.Opened? && !driver.note.Executed? && !driver.note.Inspected?
    ensures EffectsInv(Written(w, d, n, driver, events))
  {
    hide StateExplained, ValidState;
  }

  lemma CommitKeepsEffects(w: World, d: DriverId, cmd: Command)
    requires EffectsInv(w) && CommitApplies(w, d, cmd)
    ensures EffectsInv(CommitStep(w, d, cmd))
  {
    hide EffectsInv, CommitApplies, CommitStep, Accepted, Next, ValidSuccessor, Enabled;
    CommitIsAWrite(w, d, cmd);
    RootIsAsTold(w, d, cmd);
    StoredIsExplained(w);
    AcceptedStaysExplained(w.roots, w.state.value, cmd);
    AcceptedGivesValid(w.state.value, cmd);
    var n := Next(w.state.value, cmd);
    WrittenIsExplained(w, d, n, AfterWrite(w.drivers[d], w.revision + 1, n, cmd), NewEvents(w.state.value, n));
  }

  lemma StoredIsExplained(w: World)
    requires EffectsInv(w) && w.state.Some?
    ensures ValidState(w.state.value) && StateExplained(w.roots, w.state.value)
  {
    hide ValidState, StateExplained;
  }

  lemma AcceptedGivesValid(s: EvState, cmd: Command)
    requires Accepted(s, cmd)
    ensures ValidState(Next(s, cmd))
  {
    hide ValidState, Next, Enabled;
  }

  lemma InstallKeepsEffects(w: World, d: DriverId, plan: Plan, cursor: Option<Cursor>, now: Time)
    requires EffectsInv(w) && InstallApplies(w, d, plan, cursor, now)
    ensures EffectsInv(InstallStep(w, d, plan, cursor, now))
  {
    var root := w.drivers[d].note.root;
    var n := Claimed(plan, root, cursor, now);
    assert NoteHolds(w, d);
    ClaimIsExplained(w.roots, plan, root, cursor, now);
    assert ValidState(n);
    hide EffectsInv, ValidInitialInstall, Claimed, StateExplained, ValidState, NoteHolds;
    WrittenIsExplained(w, d, n, Driver(w.revision + 1, Some(n), true, Nothing), [n.pending.value]);
  }

  // ---------------------------------------------------------------- the other actions

  lemma OpenKeepsEffects(w: World, d: DriverId, root: Lease)
    requires EffectsInv(w) && CanOpen(w, d, root)
    ensures EffectsInv(Apply(w, OpenRoot(d, root)))
  {
    hide ValidState, LedgerExplains;
  }

  lemma ExecuteKeepsEffects(w: World, d: DriverId, denied: bool)
    requires EffectsInv(w) && BrokerAllows(w, d, denied)
    ensures EffectsInv(ExecuteStep(w, d, denied))
  {
    hide ValidState, LedgerExplains, NextEffect, NextIsWrite;
  }

  lemma ExecuteStaleKeepsEffects(w: World, d: DriverId)
    requires EffectsInv(w) && StaleOwnerActs(w, d)
    ensures EffectsInv(ExecuteStaleStep(w, d))
  {
    hide ValidState, LedgerExplains, NextEffect, NextIsWrite;
  }

  lemma InspectKeepsEffects(w: World, d: DriverId)
    requires EffectsInv(w)
    ensures EffectsInv(Apply(w, Inspect(d)))
  {
    hide ValidState, LedgerExplains;
  }

  lemma RemoveKeepsEffects(w: World, token: Id)
    requires EffectsInv(w)
    ensures EffectsInv(Apply(w, RemoveRoot(token)))
  {
    hide ValidState, LedgerExplains;
  }

  lemma RecoverKeepsEffects(w: World, d: DriverId)
    requires EffectsInv(w)
    ensures EffectsInv(Apply(w, RecoverRoot(d)))
  {
    hide ValidState, StateExplained, RootFits;
  }

  predicate AboutRoots(a: Action) {
    || a.OpenRoot? || a.Install? || a.Commit? || a.Execute? || a.ExecuteStale? || a.Inspect? || a.RemoveRoot?
    || a.RecoverRoot?
  }

  /** Each driver newly loaded, or as it was, or told something that is not about a root. */
  predicate SameButNotes(w: World, v: World) {
    && v.state == w.state && v.revision == w.revision && v.roots == w.roots
    && (forall d :: d in v.drivers ==>
          || v.drivers[d] == Driver(w.revision, w.state, false, Nothing)
          || (d in w.drivers && (v.drivers[d] == w.drivers[d] || ToldOfCalls(w.drivers[d], v.drivers[d]))))
  }

  predicate ToldOfCalls(before: Driver, after: Driver) {
    && after == before.(note := after.note)
    && (after.note.Confirmed? || after.note.Calling? || after.note.Answered?)
  }

  lemma RestTouchesNoRoot(w: World, a: Action)
    requires !AboutRoots(a)
    ensures SameButNotes(w, Apply(w, a))
  {
    hide FrozenMatches, ReadableLog;
  }

  lemma SameRootsKeepEffects(w: World, v: World)
    requires EffectsInv(w) && SameButNotes(w, v)
    ensures EffectsInv(v)
  {
    hide ValidState, StateExplained;
    forall d | d in v.drivers && Current(v, d) ensures NoteHolds(v, d) {
      if d in w.drivers && v.drivers[d] == w.drivers[d] { assert NoteHolds(w, d); }
    }
    hide NoteHolds;
  }

  lemma RestKeepsEffects(w: World, a: Action)
    requires EffectsInv(w) && !AboutRoots(a)
    ensures EffectsInv(Apply(w, a))
  {
    hide EffectsInv, Apply, SameButNotes;
    RestTouchesNoRoot(w, a);
    SameRootsKeepEffects(w, Apply(w, a));
  }

  lemma ActionKeepsEffects(w: World, a: Action)
    requires EffectsInv(w)
    ensures EffectsInv(Apply(w, a))
  {
    hide EffectsInv, CommitApplies, InstallApplies, ConfirmStep, BrokerAllows, StaleOwnerActs, CanOpen, InspectRoot;
    match a
    case Install(d, plan, cursor, now) =>
      if InstallApplies(w, d, plan, cursor, now) { InstallKeepsEffects(w, d, plan, cursor, now); }
    case Commit(d, cmd) => if CommitApplies(w, d, cmd) { CommitKeepsEffects(w, d, cmd); }
    case OpenRoot(d, root) => if CanOpen(w, d, root) { OpenKeepsEffects(w, d, root); }
    case Execute(d, denied) => if BrokerAllows(w, d, denied) { ExecuteKeepsEffects(w, d, denied); }
    case ExecuteStale(d) => if StaleOwnerActs(w, d) { ExecuteStaleKeepsEffects(w, d); }
    case Inspect(d) => InspectKeepsEffects(w, d);
    case RemoveRoot(token) => RemoveKeepsEffects(w, token);
    case RecoverRoot(d) => RecoverKeepsEffects(w, d);
    case _ => RestKeepsEffects(w, a);
  }

  lemma {:induction false} EveryRunKeepsEffects(base: seq<RunEvent>, actions: seq<Action>)
    ensures EffectsInv(Run(Start(base), actions))
    decreases |actions|
  {
    hide Apply;
    if actions != [] {
      var front := actions[..|actions| - 1];
      EveryRunKeepsEffects(base, front);
      hide EffectsInv;
      ActionKeepsEffects(Run(Start(base), front), actions[|actions| - 1]);
    }
  }

  // ---------------------------------------------------------------- over every run

  /** Write-ahead: after any run, with crashes anywhere, the open root (when it exists) holds the initial
      files with the ledger's successful writes replayed in order, or that plus the one prepared write,
      which is the next planned effect; the ledger has one entry per effect, in plan order. */
  lemma RootIsTheReplayedLedger(base: seq<RunEvent>, actions: seq<Action>)
    requires var w := Run(Start(base), actions);
             && w.state.Some? && w.state.value.workspace.Some?
             && !w.state.value.workspace.value.closed
             && w.state.value.workspace.value.token in w.roots
    ensures var s := Run(Start(base), actions).state.value;
            && ValidLedger(s.plan, s.attempt, s.ledger)
            && var replayed := Replayed(s.plan.effects, s.ledger, s.workspace.value.initial).files;
               var files := Run(Start(base), actions).roots[s.workspace.value.token];
               || files == replayed
               || (&& s.prepared.Some? && |s.ledger| < |s.plan.effects|
                   && s.plan.effects[|s.ledger|].WriteFile?
                   && files == WrittenFiles(replayed, WrittenFile(s.plan.effects[|s.ledger|])))
  {
    hide Run, EffectsInv, Replayed, RealWrite, ValidEntry;
    EveryRunKeepsEffects(base, actions);
    var s := Run(Start(base), actions).state.value;
    StoredIsExplained(Run(Start(base), actions));
    if s.prepared.Some? { PreparedIsTheNextWrite(s); }
  }

  /** Without outside interference an inspection never finds a third state. */
  lemma InspectionFindsNoThirdState(base: seq<RunEvent>, actions: seq<Action>)
    requires var w := Run(Start(base), actions);
             w.state.Some? && w.state.value.workspace.Some? && w.state.value.prepared.Some?
             && !w.state.value.workspace.value.closed
    ensures var w := Run(Start(base), actions);
            InspectRoot(w.roots, w.state.value.workspace.value, w.state.value.prepared.value) != ThirdState
  {
    hide Run, EffectsInv, ValidState, LedgerExplains;
    EveryRunKeepsEffects(base, actions);
    var w := Run(Start(base), actions);
    StoredIsExplained(w);
    PreparedIsTheNextWrite(w.state.value);
  }

  // ---------------------------------------------------------------- what the verifier is shown

  lemma {:induction false} ReplayKeepsFiles(effects: seq<Effect>, ledger: seq<Entry>, initial: Snapshot, path: Path)
    requires |ledger| <= |effects| && Sorted(initial.files)
    ensures var after := Replayed(effects, ledger, initial);
            && Sorted(after.files)
            && (Lookup(initial.files, path).Some? ==> Lookup(after.files, path).Some?)
    decreases |ledger|
  {
    if ledger != [] {
      var k := |ledger| - 1;
      ReplayKeepsFiles(effects, ledger[..k], initial, path);
      var before := Replayed(effects, ledger[..k], initial);
      if effects[k].WriteFile? { WriteKeepsListAndOtherPaths(before.files, WrittenFile(effects[k]), path); }
    }
  }

  lemma {:induction false} NoWritesReplayToTheInitial(effects: seq<Effect>, ledger: seq<Entry>, initial: Snapshot)
    requires |ledger| <= |effects|
    requires forall i :: 0 <= i < |ledger| ==> effects[i].ReadFile?
    ensures Replayed(effects, ledger, initial) == initial
    decreases |ledger|
  {
    if ledger != [] { NoWritesReplayToTheInitial(effects, ledger[..|ledger| - 1], initial); }
  }

  predicate HasWrite(s: EvState) { s.ledger != [] && Wrote(s.ledger[|s.ledger| - 1]) }

  /** The bridge built from a valid, explained state is always one the kernel accepts, and its changed
      paths are exactly the path the ledger wrote, or none. */
  lemma BridgeShowsWhatTheLedgerWrote(s: EvState, inputs: Id)
    requires ValidState(s) && s.workspace.Some? && s.result.Some?
    requires LedgerExplains(s, s.workspace.value)
    ensures var b := BridgeOf(s, inputs);
            && ValidDiffBridge(b)
            && (HasWrite(s) ==>
                  && s.plan.effects[|s.ledger| - 1].WriteFile?
                  && b.diff.changed == [s.plan.effects[|s.ledger| - 1].path]
                  && b.diff.afterFiles == [Some(WrittenFile(s.plan.effects[|s.ledger| - 1]))])
            && (!HasWrite(s) ==> b.diff.changed == [] && b.before == b.after)
  {
    var w := s.workspace.value;
    var before, after := w.initial.files, w.current.files;
    forall f | f in before ensures Lookup(after, f.path).Some? {
      LookupInSorted(before, f.path);
      ReplayKeepsFiles(s.plan.effects, s.ledger, w.initial, f.path);
    }
    ReplayKeepsFiles(s.plan.effects, s.ledger, w.initial, 0);
    BridgeValidIffNothingDeleted(before, after);
    OneWriteAtMost(s);
    hide ValidState, ValidBridge;
    if HasWrite(s) {
      ChangedIsTheWrite(before, after, WrittenFile(s.plan.effects[|s.ledger| - 1]));
    } else {
      NothingChanged(before);
    }
  }

  /** A valid plan writes last: before its write the files are the initial ones. */
  lemma OneWriteAtMost(s: EvState)
    requires ValidState(s) && s.workspace.Some? && LedgerExplains(s, s.workspace.value)
    ensures var w := s.workspace.value;
            && (!HasWrite(s) ==> w.current == w.initial)
            && (HasWrite(s) ==>
                  && s.plan.effects[|s.ledger| - 1].WriteFile?
                  && w.current == WrittenSnapshot(w.initial, WrittenFile(s.plan.effects[|s.ledger| - 1]))
                  && Lookup(w.initial.files, s.plan.effects[|s.ledger| - 1].path)
                     != Some(WrittenFile(s.plan.effects[|s.ledger| - 1])))
  {
    var w := s.workspace.value;
    if s.ledger != [] {
      var k := |s.ledger| - 1;
      assert ValidPlan(s.plan);
      hide ValidState;
      NoWritesReplayToTheInitial(s.plan.effects, s.ledger[..k], w.initial);
      assert RealWrite(s.plan.effects, s.ledger, w.initial, k);
    }
  }

  lemma ChangedIsTheWrite(before: seq<File>, after: seq<File>, file: File)
    requires Sorted(before) && after == WrittenFiles(before, file) && Lookup(before, file.path) != Some(file)
    ensures ChangedPaths(before, after) == [file.path]
    ensures Identities(after, ChangedPaths(before, after)) == [Some(file)]
  {
    var changed := ChangedPaths(before, after);
    forall path ensures path in changed <==> path == file.path {
      WriteKeepsListAndOtherPaths(before, file, path);
      ChangedPathsAreTheDifference(before, after, path);
    }
    WriteKeepsListAndOtherPaths(before, file, file.path);
    ChangedPathsAreTheDifference(before, after, file.path);
    assert |changed| > 1 ==> changed[0] < changed[1];
    forall i | 0 <= i < |changed| ensures changed[i] == file.path { assert changed[i] in changed; }
    assert file.path in changed;
  }

  lemma {:induction false} NothingChanged(files: seq<File>)
    ensures ChangedPaths(files, files) == []
    decreases |files|
  {
    if files != [] { NothingChanged(files[1..]); }
  }
}
