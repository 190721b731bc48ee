/** The redacted trace of a run and its grades. A span keeps the shape of an event, never its ids or its
    prose: events become positions, tasks become their index in the run's creation. */
module RuntimeTrace {
  import opened Common
  import opened RuntimeTypes
  import opened EngineerVerifierTerminal

  datatype Kind =
    | CreatedKind | PlanKind | StatusKind | TaskKind | EvidenceKind | GuardKind | RequirementsKind
    | ReviewKind | AuditKind | CompletionKind | OutputKind | ResponseKind | NoteKind

  datatype Guard = Allows | Pauses | Denies

  datatype Facts = Facts(
    statusFrom: Option<RunStatus>, statusTo: Option<RunStatus>,
    task: Option<int>, taskFrom: Option<TaskStatus>, taskTo: Option<TaskStatus>,
    modes: seq<int>,
    requirements: seq<int>, guard: Option<Guard>, denials: seq<int>,
    review: Option<Verdict>, audit: Option<Verdict>)

  const NOTHING := Facts(None, None, None, None, None, [], [], None, [], None, None)

  /** One span; the positions stand for the correlation strings built from them. */
  datatype Span = Span(event: int, previous: Option<int>, at: Time, producer: Role, kind: Kind, facts: Facts)

  /** Each task's index in the creation event; a task listed twice gets its last index. */
  function TaskIndex(tasks: seq<Id>, task: Id): (k: Option<int>)
    ensures k.None? <==> task !in tasks
    ensures k.Some? ==> 0 <= k.value < |tasks| && tasks[k.value] == task
  {
    if tasks == [] then None
    else if tasks[|tasks| - 1] == task then Some(|tasks| - 1)
    else TaskIndex(tasks[..|tasks| - 1], task)
  }

  function RequirementCodes(reviewer: bool, auditor: bool): seq<int> {
    (if reviewer then [0] else []) + (if auditor then [1] else [])
  }

  function KindOf(p: Payload): Kind {
    match p
    case RunCreated(_, _) => CreatedKind
    case PlanRecorded(_, _) => PlanKind
    case StatusMoved(_, _) => StatusKind
    case TaskMoved(_, _, _) => TaskKind
    case EvidenceReferenced(_) => EvidenceKind
    case GuardDecided(_) => GuardKind
    case RequirementsSet(_, _) => RequirementsKind
    case ReviewDecided(_) => ReviewKind
    case AuditDecided(_) => AuditKind
    case CompletionClaimed(_) => CompletionKind
    case OutputGiven(_, _, _) => OutputKind
    case FinalResponse(_) => ResponseKind
    case PhaseNote(_) => NoteKind
    case Noted(_) => NoteKind
  }

  function FactsOf(p: Payload, tasks: seq<Id>): Facts {
    match p
    case RunCreated(_, _) => NOTHING.(statusTo := Some(DraftRun))
    case PlanRecorded(_, modes) => NOTHING.(modes := modes)
    case StatusMoved(before, after) => NOTHING.(statusFrom := Some(before), statusTo := Some(after))
    case TaskMoved(task, before, after) =>
      NOTHING.(task := TaskIndex(tasks, task), taskFrom := Some(before), taskTo := Some(after))
    case GuardDecided(Allow(gates)) => NOTHING.(guard := Some(Allows), requirements := gates)
    case GuardDecided(Pause(gates)) => NOTHING.(guard := Some(Pauses), requirements := gates)
    case GuardDecided(Deny(reasons)) => NOTHING.(guard := Some(Denies), denials := reasons)
    case RequirementsSet(reviewer, auditor) => NOTHING.(requirements := RequirementCodes(reviewer, auditor))
    case ReviewDecided(review) => NOTHING.(review := Some(review.verdict))
    case AuditDecided(audit) => NOTHING.(audit := Some(audit.verdict))
    case _ => NOTHING
  }

  function SpanOf(e: RunEvent, tasks: seq<Id>): Span {
    Span(e.sequence, if e.previous.Some? then Some(e.sequence - 1) else None, e.at, e.producer,
      KindOf(e.payload), FactsOf(e.payload, tasks))
  }

  function BuildTrace(events: seq<RunEvent>): Option<seq<Span>> {
    if !ValidEventChain(events) then None
    else Some(seq(|events|, i requires 0 <= i < |events| => SpanOf(events[i], events[0].payload.tasks)))
  }

  // ---------------------------------------------------------------- redaction

  /** An injective renaming of task ids. */
  predicate Renaming(g: map<Id, Id>) { forall x, y :: x in g && y in g && g[x] == g[y] ==> x == y }

  /** The same payload up to task names and everything that is prose or an identity. */
  predicate SamePayload(p: Payload, q: Payload, g: map<Id, Id>) {
    match p
    case RunCreated(_, tasks) =>
      && q.RunCreated? && |q.tasks| == |tasks|
      && forall i :: 0 <= i < |tasks| ==> tasks[i] in g && q.tasks[i] == g[tasks[i]]
    case PlanRecorded(_, modes) => q.PlanRecorded? && q.modes == modes
    case TaskMoved(task, before, after) =>
      q.TaskMoved? && task in g && q.moved == g[task] && q.taskBefore == before && q.taskAfter == after
    case StatusMoved(_, _) => q == p
    case GuardDecided(_) => q == p
    case RequirementsSet(_, _) => q == p
    case EvidenceReferenced(_) => q.EvidenceReferenced?
    case ReviewDecided(review) => q.ReviewDecided? && q.review.verdict == review.verdict
    case AuditDecided(audit) => q.AuditDecided? && q.audit.verdict == audit.verdict
    case CompletionClaimed(_) => q.CompletionClaimed?
    case OutputGiven(_, _, _) => q.OutputGiven?
    case FinalResponse(_) => q.FinalResponse?
    case PhaseNote(_) => q.PhaseNote? || q.Noted?
    case Noted(_) => q.PhaseNote? || q.Noted?
  }

  predicate SameUpToNames(a: seq<RunEvent>, b: seq<RunEvent>, g: map<Id, Id>) {
    && |a| == |b|
    && forall i :: 0 <= i < |a| ==>
         a[i].at == b[i].at && a[i].producer == b[i].producer && SamePayload(a[i].payload, b[i].payload, g)
  }

  lemma {:induction false} RenamedTaskIndex(tasks: seq<Id>, renamed: seq<Id>, g: map<Id, Id>, task: Id)
    requires Renaming(g) && task in g && |renamed| == |tasks|
    requires forall i :: 0 <= i < |tasks| ==> tasks[i] in g && renamed[i] == g[tasks[i]]
    ensures TaskIndex(renamed, g[task]) == TaskIndex(tasks, task)
    decreases |tasks|
  {
    if tasks != [] {
      var n := |tasks| - 1;
      assert tasks[n] in g && (g[tasks[n]] == g[task] ==> tasks[n] == task);
      RenamedTaskIndex(tasks[..n], renamed[..n], g, task);
    }
  }

  lemma SpansAgree(a: seq<RunEvent>, b: seq<RunEvent>, g: map<Id, Id>, i: int)
    requires ValidEventChain(a) && ValidEventChain(b) && Renaming(g) && SameUpToNames(a, b, g) && 0 <= i < |a|
    ensures SpanOf(a[i], a[0].payload.tasks) == SpanOf(b[i], b[0].payload.tasks)
  {
    hide TaskIndex, UniqueIds;
    assert LinkedAt(a, i) && LinkedAt(b, i);
    assert SamePayload(a[0].payload, b[0].payload, g) && SamePayload(a[i].payload, b[i].payload, g);
    if a[i].payload.TaskMoved? {
      RenamedTaskIndex(a[0].payload.tasks, b[0].payload.tasks, g, a[i].payload.moved);
    }
  }

  /** Redaction: two valid streams that agree up to event ids, an injective renaming of task ids, identities
      and prose have the same trace. */
  lemma TraceRevealsNoNames(a: seq<RunEvent>, b: seq<RunEvent>, g: map<Id, Id>)
    requires ValidEventChain(a) && ValidEventChain(b) && Renaming(g) && SameUpToNames(a, b, g)
    ensures BuildTrace(a).Some? && BuildTrace(a) == BuildTrace(b)
  {
    forall i | 0 <= i < |a| ensures BuildTrace(a).value[i] == BuildTrace(b).value[i] { SpansAgree(a, b, g, i); }
    hide SpanOf, Linked, UniqueIds, SamePayload;
    assert BuildTrace(a).value == BuildTrace(b).value;
  }

  /** And it keeps the rest: streams with the same trace have the same length, times, producers, status
      moves and verdicts, event by event. */
  lemma TraceKeepsTheShape(a: seq<RunEvent>, b: seq<RunEvent>, i: int)
    requires BuildTrace(a).Some? && BuildTrace(a) == BuildTrace(b) && 0 <= i < |a|
    ensures |a| == |b| && a[i].at == b[i].at && a[i].producer == b[i].producer
    ensures KindOf(a[i].payload) == KindOf(b[i].payload)
    ensures a[i].payload.StatusMoved? ==> a[i].payload == b[i].payload
    ensures a[i].payload.ReviewDecided? ==>
              b[i].payload.ReviewDecided? && b[i].payload.review.verdict == a[i].payload.review.verdict
    ensures a[i].payload.AuditDecided? ==>
              b[i].payload.AuditDecided? && b[i].payload.audit.verdict == a[i].payload.audit.verdict
    ensures a[i].payload.TaskMoved? ==>
              && b[i].payload.TaskMoved?
              && TaskIndex(a[0].payload.tasks, a[i].payload.moved) == TaskIndex(b[0].payload.tasks, b[i].payload.moved)
  {
    assert BuildTrace(a).value[i] == BuildTrace(b).value[i];
    hide ValidEventChain, TaskIndex;
  }

  // ---------------------------------------------------------------- serialization

  datatype Lifecycle = Creation | Planning | Transition | TaskLife | EvidenceLife | Decision | Output | NoteLife

  datatype DecisionKind =
    | NoDecision | GuardOutcome | GuardRequirements | ReviewDecision | AuditDecision | CompletionEvidence

  function LifecycleOf(kind: Kind): Lifecycle {
    match kind
    case CreatedKind => Creation
    case PlanKind => Planning
    case StatusKind => Transition
    case TaskKind => TaskLife
    case EvidenceKind => EvidenceLife
    case GuardKind => Decision
    case RequirementsKind => Decision
    case ReviewKind => Decision
    case AuditKind => Decision
    case CompletionKind => Decision
    case OutputKind => Output
    case ResponseKind => Output
    case NoteKind => NoteLife
  }

  function DecisionOf(kind: Kind): DecisionKind {
    match kind
    case GuardKind => GuardOutcome
    case RequirementsKind => GuardRequirements
    case ReviewKind => DecisionKind.ReviewDecision
    case AuditKind => DecisionKind.AuditDecision
    case CompletionKind => CompletionEvidence
    case _ => NoDecision
  }

  /** The names of a serialized trace. */
  datatype Key =
    | SpansKey
    | SchemaVersion | RunCorrelation | EventIdentity | SequenceKey | PreviousEventIdentity | OccurredAt
    | ProducerRole | EventKind | LifecycleKind | DecisionKindKey | FactsKey
    | RunStatusFrom | RunStatusTo | TaskCorrelation | TaskStatusFrom | TaskStatusTo | ExecutionModes
    | GuardRequirementsKey | GuardOutcomeKey | GuardDenyReasons | ReviewVerdict | AuditVerdict

  /** A closed vocabulary, a number, a time or a correlation, each with its own spelling. */
  datatype Scalar =
    | Version(n: int) | Number(n: int) | Clock(at: Time) | RunZero | EventAt(n: int) | TaskAt(n: int)
    | RoleName(role: Role) | KindName(kind: Kind) | LifecycleName(life: Lifecycle) | DecisionName(decision: DecisionKind)
    | RunStatusName(status: RunStatus) | TaskStatusName(taskStatus: TaskStatus) | Code(n: int)
    | GuardName(guard: Guard) | VerdictName(verdict: Verdict)

  datatype Value =
    | Null
    | One(scalar: Scalar)
    | Items(items: seq<Value>)
    | Object(fields: map<Key, Value>)

  const SCHEMA: Value := One(Version(1))

  function Codes(codes: seq<int>): Value { Items(seq(|codes|, i requires 0 <= i < |codes| => One(Code(codes[i])))) }

  function Status(status: Option<RunStatus>): Value {
    match status case None => Null case Some(v) => One(RunStatusName(v))
  }

  function TaskState(status: Option<TaskStatus>): Value {
    match status case None => Null case Some(v) => One(TaskStatusName(v))
  }

  function VerdictValue(verdict: Option<Verdict>): Value {
    match verdict case None => Null case Some(v) => One(VerdictName(v))
  }

  /** Every optional fact is written, as null when it is absent. */
  function FactsValue(f: Facts): Value {
    Object(map[
      RunStatusFrom := Status(f.statusFrom), RunStatusTo := Status(f.statusTo),
      TaskCorrelation := match f.task { case None => Null case Some(k) => One(TaskAt(k)) },
      TaskStatusFrom := TaskState(f.taskFrom), TaskStatusTo := TaskState(f.taskTo),
      ExecutionModes := Codes(f.modes),
      GuardRequirementsKey := Codes(f.requirements),
      GuardOutcomeKey := match f.guard { case None => Null case Some(g) => One(GuardName(g)) },
      GuardDenyReasons := Codes(f.denials),
      ReviewVerdict := VerdictValue(f.review), AuditVerdict := VerdictValue(f.audit)])
  }

  function SpanValue(s: Span): Value {
    Object(map[
      SchemaVersion := SCHEMA, RunCorrelation := One(RunZero),
      EventIdentity := One(EventAt(s.event)), SequenceKey := One(Number(s.event)),
      PreviousEventIdentity := match s.previous { case None => Null case Some(k) => One(EventAt(k)) },
      OccurredAt := One(Clock(s.at)), ProducerRole := One(RoleName(s.producer)),
      EventKind := One(KindName(s.kind)), LifecycleKind := One(LifecycleName(LifecycleOf(s.kind))),
      DecisionKindKey := One(DecisionName(DecisionOf(s.kind))),
      FactsKey := FactsValue(s.facts)])
  }

  function SpanValues(spans: seq<Span>): seq<Value> {
    seq(|spans|, i requires 0 <= i < |spans| => SpanValue(spans[i]))
  }

  function Serialized(spans: seq<Span>): Value {
    Object(map[SchemaVersion := SCHEMA, RunCorrelation := One(RunZero), SpansKey := Items(SpanValues(spans))])
  }

  lemma CodesAreInjective(a: seq<int>, b: seq<int>)
    requires Codes(a) == Codes(b)
    ensures a == b
  {
    assert |Codes(a).items| == |a| && |Codes(b).items| == |b|;
    forall i | 0 <= i < |a| ensures a[i] == b[i] {
      assert Codes(a).items[i] == Codes(b).items[i];
    }
  }

  lemma FactsValuesAreInjective(f: Facts, g: Facts)
    requires FactsValue(f) == FactsValue(g)
    ensures f == g
  {
    hide Codes;
    var x, y := FactsValue(f).fields, FactsValue(g).fields;
    assert x[RunStatusFrom] == y[RunStatusFrom] && x[RunStatusTo] == y[RunStatusTo];
    assert x[TaskCorrelation] == y[TaskCorrelation];
    assert x[TaskStatusFrom] == y[TaskStatusFrom] && x[TaskStatusTo] == y[TaskStatusTo];
    assert x[ExecutionModes] == y[ExecutionModes];
    assert x[GuardRequirementsKey] == y[GuardRequirementsKey] && x[GuardOutcomeKey] == y[GuardOutcomeKey];
    assert x[GuardDenyReasons] == y[GuardDenyReasons];
    assert x[ReviewVerdict] == y[ReviewVerdict] && x[AuditVerdict] == y[AuditVerdict];
    CodesAreInjective(f.modes, g.modes);
    CodesAreInjective(f.requirements, g.requirements);
    CodesAreInjective(f.denials, g.denials);
  }

  lemma SpanValuesAreInjective(s: Span, r: Span)
    requires SpanValue(s) == SpanValue(r)
    ensures s == r
  {
    hide FactsValue, LifecycleOf, DecisionOf;
    var x, y := SpanValue(s).fields, SpanValue(r).fields;
    assert x[EventIdentity] == y[EventIdentity] && x[PreviousEventIdentity] == y[PreviousEventIdentity];
    assert x[OccurredAt] == y[OccurredAt] && x[ProducerRole] == y[ProducerRole];
    assert x[EventKind] == y[EventKind] && x[FactsKey] == y[FactsKey];
    FactsValuesAreInjective(s.facts, r.facts);
  }

  /** Two traces are written alike only when they are alike, so comparing what is written compares traces. */
  lemma SerializationIsInjective(a: seq<Span>, b: seq<Span>)
    requires Serialized(a) == Serialized(b)
    ensures a == b
  {
    hide SpanValue;
    assert Serialized(a).fields[SpansKey] == Serialized(b).fields[SpansKey];
    assert |SpanValues(a)| == |a| && |SpanValues(b)| == |b|;
    forall i | 0 <= i < |a| ensures a[i] == b[i] {
      assert SpanValues(a)[i] == SpanValues(b)[i];
      SpanValuesAreInjective(a[i], b[i]);
    }
  }

  // ---------------------------------------------------------------- completeness

  const OUTER: seq<Key> :=
    [SchemaVersion, RunCorrelation, EventIdentity, SequenceKey, PreviousEventIdentity, OccurredAt, ProducerRole,
     EventKind, LifecycleKind, DecisionKindKey, FactsKey]

  const INNER: seq<Key> :=
    [RunStatusFrom, RunStatusTo, TaskCorrelation, TaskStatusFrom, TaskStatusTo, ExecutionModes, GuardRequirementsKey,
     GuardOutcomeKey, GuardDenyReasons, ReviewVerdict, AuditVerdict]

  /** Field paths every span must have, nullable ones included. */
  const REQUIRED_FIELDS: int := 22

  function RequiredPath(field: int): seq<Key>
    requires 0 <= field < REQUIRED_FIELDS
  {
    if field < 11 then [OUTER[field]] else [FactsKey, INNER[field - 11]]
  }

  /** The path leads through objects to a value, which may be null. */
  predicate HasPath(v: Value, path: seq<Key>)
    decreases |path|
  {
    path == [] || (v.Object? && path[0] in v.fields && HasPath(v.fields[path[0]], path[1..]))
  }

  datatype Grade = Grade(present: int, expected: int, passes: bool, missing: seq<(int, int)>)

  /** The spans of a candidate, which is any value at all. */
  function SpansOf(candidate: Value): seq<Value> {
    if candidate.Object? && SpansKey in candidate.fields && candidate.fields[SpansKey].Items? then
      candidate.fields[SpansKey].items
    else []
  }

  predicate Has(candidate: Value, span: int, field: int)
    requires 0 <= span && 0 <= field < REQUIRED_FIELDS
  {
    span < |SpansOf(candidate)| && HasPath(SpansOf(candidate)[span], RequiredPath(field))
  }

  /** The missing pairs of the first `spans` spans, in order, and of the first `fields` fields of the next. */
  function MissingUpTo(candidate: Value, spans: int, fields: int): seq<(int, int)>
    requires 0 <= spans && 0 <= fields <= REQUIRED_FIELDS
    decreases spans, fields
  {
    if fields > 0 then
      MissingUpTo(candidate, spans, fields - 1)
      + (if Has(candidate, spans, fields - 1) then [] else [(spans, fields - 1)])
    else if spans > 0 then MissingUpTo(candidate, spans - 1, REQUIRED_FIELDS)
    else []
  }

  /** Counts the required fields of exactly the expected number of spans. The score, a ratio of integers in
      the source, passes from 99 percent; the trace built from the very events scores full marks. */
  method GradeCompleteness(candidate: Value, events: seq<RunEvent>) returns (g: Grade)
    ensures g.expected == |events| * REQUIRED_FIELDS && g.present + |g.missing| == g.expected
    ensures g.missing == MissingUpTo(candidate, |events|, 0)
    ensures g.passes <==> g.expected > 0 && 100 * g.present >= 99 * g.expected
    ensures BuildTrace(events).Some? && candidate == Serialized(BuildTrace(events).value) ==>
              g.missing == [] && g.present == g.expected && g.passes
  {
    hide Has, BuildTrace, Serialized;
    var present := 0;
    var missing := [];
    var i := 0;
    while i < |events|
      invariant 0 <= i <= |events|
      invariant missing == MissingUpTo(candidate, i, 0) && present + |missing| == i * REQUIRED_FIELDS
    {
      var f := 0;
      while f < REQUIRED_FIELDS
        invariant 0 <= f <= REQUIRED_FIELDS
        invariant missing == MissingUpTo(candidate, i, f) && present + |missing| == i * REQUIRED_FIELDS + f
      {
        if Has(candidate, i, f) { present := present + 1; } else { missing := missing + [(i, f)]; }
        f := f + 1;
      }
      i := i + 1;
    }
    var expected := |events| * REQUIRED_FIELDS;
    g := Grade(present, expected, expected > 0 && 100 * present >= 99 * expected, missing);
    if BuildTrace(events).Some? && candidate == Serialized(BuildTrace(events).value) { BuiltTraceIsComplete(events); }
  }

  lemma {:induction false} AlikeCandidatesMissAlike(a: Value, b: Value, spans: int, fields: int)
    requires 0 <= spans && 0 <= fields <= REQUIRED_FIELDS
    requires forall i, f {:trigger Has(a, i, f)} :: 0 <= i <= spans && 0 <= f < REQUIRED_FIELDS && (i < spans || fields > 0) ==>
               (Has(a, i, f) <==> Has(b, i, f))
    ensures MissingUpTo(a, spans, fields) == MissingUpTo(b, spans, fields)
    decreases spans, fields
  {
    hide Has;
    if fields > 0 { AlikeCandidatesMissAlike(a, b, spans, fields - 1); }
    else if spans > 0 { AlikeCandidatesMissAlike(a, b, spans - 1, REQUIRED_FIELDS); }
  }

  /** Spans beyond the expected ones, and names beside the spans, make no difference. */
  lemma ExtraSpansAreIgnored(spans: seq<Value>, extra: seq<Value>, others: map<Key, Value>, expected: int)
    requires 0 <= expected <= |spans|
    ensures MissingUpTo(Object(others[SpansKey := Items(spans + extra)]), expected, 0)
         == MissingUpTo(Object(map[SpansKey := Items(spans)]), expected, 0)
  {
    var a, b := Object(others[SpansKey := Items(spans + extra)]), Object(map[SpansKey := Items(spans)]);
    assert SpansOf(a) == spans + extra && SpansOf(b) == spans;
    hide SpansOf, HasPath;
    AlikeCandidatesMissAlike(a, b, expected, 0);
  }

  /** What trace_span fills is every required field, whatever the event. */
  lemma SpanHasEveryField(s: Span, field: int)
    requires 0 <= field < REQUIRED_FIELDS
    ensures HasPath(SpanValue(s), RequiredPath(field))
  {
    var path := RequiredPath(field);
    var fields := SpanValue(s).fields;
    if field < 11 {
      assert path[0] in fields && path[1..] == [];
    } else {
      var rest := [INNER[field - 11]];
      assert path[0] == FactsKey && path[1..] == rest && rest[1..] == [];
      assert fields[FactsKey] == FactsValue(s.facts);
      assert HasPath(FactsValue(s.facts), rest) by { assert rest[0] in FactsValue(s.facts).fields; }
      hide FactsValue;
    }
  }

  /** The trace built from a stream lacks nothing when it is graded against that stream. */
  lemma BuiltTraceIsComplete(events: seq<RunEvent>)
    requires BuildTrace(events).Some?
    ensures events != [] && MissingUpTo(Serialized(BuildTrace(events).value), |events|, 0) == []
  {
    var spans := BuildTrace(events).value;
    assert |spans| == |events|;
    NothingMissing(spans, |spans|, 0);
    hide Serialized, BuildTrace, Linked, UniqueIds;
  }

  lemma {:induction false} NothingMissing(trace: seq<Span>, spans: int, fields: int)
    requires 0 <= spans <= |trace| && 0 <= fields <= REQUIRED_FIELDS && (fields > 0 ==> spans < |trace|)
    ensures MissingUpTo(Serialized(trace), spans, fields) == []
    decreases spans, fields
  {
    if fields > 0 {
      NothingMissing(trace, spans, fields - 1);
      SpanHasEveryField(trace[spans], fields - 1);
      assert SpansOf(Serialized(trace)) == SpanValues(trace);
      hide SpanValue, HasPath, Serialized;
    } else if spans > 0 {
      NothingMissing(trace, spans - 1, REQUIRED_FIELDS);
    }
  }

  /** A pair is reported missing exactly when that span lacks that field. */
  lemma {:induction false} MissingIsExact(candidate: Value, spans: int, fields: int, span: int, field: int)
    requires 0 <= spans && 0 <= fields <= REQUIRED_FIELDS && 0 <= field < REQUIRED_FIELDS && 0 <= span
    ensures (span, field) in MissingUpTo(candidate, spans, fields)
        <==> (span < spans || (span == spans && field < fields)) && !Has(candidate, span, field)
    decreases spans, fields
  {
    hide Has;
    if fields > 0 { MissingIsExact(candidate, spans, fields - 1, span, field); }
    else if spans > 0 { MissingIsExact(candidate, spans - 1, REQUIRED_FIELDS, span, field); }
  }
}
