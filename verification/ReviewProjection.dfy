/** The projection of a passing review: the review event and then the audit event, directly after the
    run's terminal phase event, each exactly once however often it is interrupted and repeated. */
module ReviewProjection {
  import opened Common
  import opened RuntimeTypes
  import opened EngineerVerifierKernel
  import opened EngineerVerifierRuns
  import opened EngineerVerifierOutbox
  import opened EngineerVerifierTerminal

  /** The two decisions of a resolved pass, with the digests of the results that carried them. */
  datatype Pair = Pair(review: ReviewDecision, audit: AuditDecision, reviewResult: Id, auditResult: Id)

  /** The event that continues these events. */
  function NextEvent(events: seq<RunEvent>, id: EventId, at: Time, producer: Role, payload: Payload): RunEvent {
    RunEvent(id, |events|, LastId(events), at, producer, payload)
  }

  function ReviewEvent(events: seq<RunEvent>, p: Pair): RunEvent {
    NextEvent(events, ReviewEventId(p.reviewResult), p.review.decidedAt, Reviewer, ReviewDecided(p.review))
  }

  function AuditEvent(events: seq<RunEvent>, p: Pair): RunEvent {
    NextEvent(events, AuditEventId(p.auditResult), p.audit.decidedAt, Auditor, AuditDecided(p.audit))
  }

  datatype Shape = Absent | ReviewOnly | Complete

  /** Neither of the two events, nor a decision of any kind. */
  predicate Unrelated(e: RunEvent, p: Pair) {
    && e.id != ReviewEventId(p.reviewResult) && e.id != AuditEventId(p.auditResult)
    && !e.payload.ReviewDecided? && !e.payload.AuditDecided?
  }

  predicate UnrelatedFrom(events: seq<RunEvent>, i: int, p: Pair)
    requires 0 <= i
  {
    forall j :: i <= j < |events| ==> Unrelated(events[j], p)
  }

  /** What follows the event at `k`: nothing, the review event alone, or the pair and then anything else. */
  function ShapeOf(events: seq<RunEvent>, k: int, p: Pair): Option<Shape> {
    if !(0 <= k < |events|) then None
    else if |events| == k + 1 then Some(Absent)
    else if events[k + 1] != ReviewEvent(events[..k + 1], p) then None
    else if |events| == k + 2 then Some(ReviewOnly)
    else if events[k + 2] == AuditEvent(events[..k + 2], p) && UnrelatedFrom(events, k + 3, p) then Some(Complete)
    else None
  }

  // ---------------------------------------------------------------- the classifier's loop

  /** What the scan demands of one event: an event with one of the two ids is exactly that event here, and
      every decision in the log is one of the two. */
  predicate Consistent(events: seq<RunEvent>, i: int, p: Pair)
    requires 0 <= i < |events|
  {
    && (events[i].id == ReviewEventId(p.reviewResult) ==> events[i] == ReviewEvent(events[..i], p))
    && (events[i].id == AuditEventId(p.auditResult) ==> events[i] == AuditEvent(events[..i], p))
    && (events[i].payload.ReviewDecided? ==>
          events[i].payload.review == p.review && events[i].id == ReviewEventId(p.reviewResult))
    && (events[i].payload.AuditDecided? ==>
          events[i].payload.audit == p.audit && events[i].id == AuditEventId(p.auditResult))
  }

  /** The only place of an id between two positions. */
  predicate OnlyAt(events: seq<RunEvent>, low: int, high: int, id: EventId, at: Option<int>)
    requires 0 <= low <= high <= |events|
  {
    && (at.Some? ==> low <= at.value < high && events[at.value].id == id)
    && forall j :: low <= j < high && events[j].id == id ==> at == Some(j)
  }

  method Classify(events: seq<RunEvent>, k: int, p: Pair) returns (shape: Option<Shape>)
    ensures shape == ShapeOf(events, k, p)
  {
    if !(0 <= k < |events|) { return None; }
    var reviewAt: Option<int>, auditAt: Option<int> := None, None;
    var i := k + 1;
    while i < |events|
      invariant k + 1 <= i <= |events|
      invariant forall j :: k + 1 <= j < i ==> Consistent(events, j, p)
      invariant OnlyAt(events, k + 1, i, ReviewEventId(p.reviewResult), reviewAt)
      invariant OnlyAt(events, k + 1, i, AuditEventId(p.auditResult), auditAt)
    {
      var e := events[i];
      if e.id == ReviewEventId(p.reviewResult) {
        if e != ReviewEvent(events[..i], p) || reviewAt.Some? {
          ScanRefuses(events, k, i, p, reviewAt, auditAt);
          return None;
        }
        reviewAt := Some(i);
      }
      if e.id == AuditEventId(p.auditResult) {
        if e != AuditEvent(events[..i], p) || auditAt.Some? {
          ScanRefuses(events, k, i, p, reviewAt, auditAt);
          return None;
        }
        auditAt := Some(i);
      }
      if (e.payload.ReviewDecided? && (e.payload.review != p.review || e.id != ReviewEventId(p.reviewResult)))
         || (e.payload.AuditDecided? && (e.payload.audit != p.audit || e.id != AuditEventId(p.auditResult))) {
        InconsistentHasNoShape(events, k, i, p);
        return None;
      }
      i := i + 1;
    }
    ScanDecides(events, k, p, reviewAt, auditAt);
    if reviewAt.None? && auditAt.None? && |events| == k + 1 { return Some(Absent); }
    if reviewAt == Some(k + 1) && auditAt.None? && |events| == k + 2 { return Some(ReviewOnly); }
    if reviewAt == Some(k + 1) && auditAt == Some(k + 2) { return Some(Complete); }
    return None;
  }

  /** A log with a shape is consistent everywhere after `k`, and holds each id once. */
  lemma ShapedIsConsistent(events: seq<RunEvent>, k: int, i: int, p: Pair)
    requires ShapeOf(events, k, p).Some? && k < i < |events|
    ensures Consistent(events, i, p)
    ensures events[i].id == ReviewEventId(p.reviewResult) ==> i == k + 1
    ensures events[i].id == AuditEventId(p.auditResult) ==> i == k + 2
  {
    if i > k + 2 { assert Unrelated(events[i], p); }
  }

  lemma InconsistentHasNoShape(events: seq<RunEvent>, k: int, i: int, p: Pair)
    requires 0 <= k < i < |events| && !Consistent(events, i, p)
    ensures ShapeOf(events, k, p).None?
  {
    if ShapeOf(events, k, p).Some? { ShapedIsConsistent(events, k, i, p); }
  }

  /** A second event with one of the ids, or one that differs from the expected event, has no shape. */
  lemma ScanRefuses(events: seq<RunEvent>, k: int, i: int, p: Pair, reviewAt: Option<int>, auditAt: Option<int>)
    requires 0 <= k < i < |events|
    requires OnlyAt(events, k + 1, i, ReviewEventId(p.reviewResult), reviewAt) || reviewAt == Some(i)
    requires OnlyAt(events, k + 1, i, AuditEventId(p.auditResult), auditAt)
    requires || (events[i].id == ReviewEventId(p.reviewResult)
                 && (events[i] != ReviewEvent(events[..i], p) || (reviewAt.Some? && reviewAt != Some(i))))
             || (events[i].id == AuditEventId(p.auditResult)
                 && (events[i] != AuditEvent(events[..i], p) || auditAt.Some?))
    ensures ShapeOf(events, k, p).None?
  {
    if ShapeOf(events, k, p).Some? {
      ShapedIsConsistent(events, k, i, p);
      if reviewAt.Some? && reviewAt.value < i { ShapedIsConsistent(events, k, reviewAt.value, p); }
      if auditAt.Some? { ShapedIsConsistent(events, k, auditAt.value, p); }
    }
  }

  /** Once the scan has passed, the two places decide the shape. */
  lemma ScanDecides(events: seq<RunEvent>, k: int, p: Pair, reviewAt: Option<int>, auditAt: Option<int>)
    requires 0 <= k < |events|
    requires forall j :: k + 1 <= j < |events| ==> Consistent(events, j, p)
    requires OnlyAt(events, k + 1, |events|, ReviewEventId(p.reviewResult), reviewAt)
    requires OnlyAt(events, k + 1, |events|, AuditEventId(p.auditResult), auditAt)
    ensures ShapeOf(events, k, p)
         == if reviewAt.None? && auditAt.None? && |events| == k + 1 then Some(Absent)
            else if reviewAt == Some(k + 1) && auditAt.None? && |events| == k + 2 then Some(ReviewOnly)
            else if reviewAt == Some(k + 1) && auditAt == Some(k + 2) then Some(Complete)
            else None
  {
    if |events| > k + 1 { assert Consistent(events, k + 1, p); }
    if |events| > k + 2 { assert Consistent(events, k + 2, p); }
    if reviewAt == Some(k + 1) && auditAt == Some(k + 2) {
      forall j | k + 3 <= j < |events| ensures Unrelated(events[j], p) { assert Consistent(events, j, p); }
    }
  }

  // ---------------------------------------------------------------- one append at a time

  /** Where the terminal phase event of a finished run is. */
  predicate Ready(log: seq<RunEvent>, s: EvState) {
    TerminalChain(log, s).Some? && s.projected.Some? && 0 <= s.projected.value.sequence < |log|
  }

  /** One durable effect of the projection: the missing event, if the log has a shape that lacks one. */
  function ProjectOnce(log: seq<RunEvent>, s: EvState, p: Pair): seq<RunEvent> {
    if !Ready(log, s) then log
    else
      match ShapeOf(log, s.projected.value.sequence, p)
      case Some(Absent) => log + [ReviewEvent(log, p)]
      case Some(ReviewOnly) => log + [AuditEvent(log, p)]
      case _ => log
  }

  /** No event up to the terminal one uses the ids of the pair. */
  predicate PairIsNew(log: seq<RunEvent>, k: int, p: Pair)
    requires 0 <= k < |log|
  {
    forall i :: 0 <= i <= k ==> log[i].id != ReviewEventId(p.reviewResult) && log[i].id != AuditEventId(p.auditResult)
  }

  /** The chain of a finished run stays accepted when linked events with new ids follow it. */
  lemma LaterEventsKeepTheChain(log: seq<RunEvent>, s: EvState, e: RunEvent)
    requires TerminalChain(log, s).Some?
    requires e.sequence == |log| && e.previous == LastId(log) && !Mentions(log, e.id) && ValidPhaseEvent(e)
    ensures TerminalChain(log + [e], s) == Some(log + [e])
  {
    hide ValidState, ChainRows, ValidRows, Linked, UniqueIds, ValidPhaseEvent;
    var after := log + [e];
    AppendKeepsLinked(log, e);
    UniqueIdsAppend(log, e);
    assert forall i :: 0 <= i < |log| ==> after[i] == log[i];
    var k := s.projected.value.sequence;
    assert after[..k + 1] == log[..k + 1];
  }

  /** The id of a pair's event is new to a log that ends at or just after the terminal event. */
  lemma AppendedReviewFits(log: seq<RunEvent>, s: EvState, p: Pair)
    requires Ready(log, s) && PairIsNew(log, s.projected.value.sequence, p)
    requires ShapeOf(log, s.projected.value.sequence, p) == Some(Absent)
    ensures var after := log + [ReviewEvent(log, p)];
            Ready(after, s) && PairIsNew(after, s.projected.value.sequence, p)
            && ShapeOf(after, s.projected.value.sequence, p) == Some(ReviewOnly)
  {
    hide TerminalChain;
    var e := ReviewEvent(log, p);
    LaterEventsKeepTheChain(log, s, e);
    var k := s.projected.value.sequence;
    assert (log + [e])[..k + 1] == log;
  }

  lemma AppendedAuditFits(log: seq<RunEvent>, s: EvState, p: Pair)
    requires Ready(log, s) && PairIsNew(log, s.projected.value.sequence, p)
    requires ShapeOf(log, s.projected.value.sequence, p) == Some(ReviewOnly)
    ensures var after := log + [AuditEvent(log, p)];
            Ready(after, s) && PairIsNew(after, s.projected.value.sequence, p)
            && ShapeOf(after, s.projected.value.sequence, p) == Some(Complete)
  {
    hide TerminalChain;
    var e := AuditEvent(log, p);
    LaterEventsKeepTheChain(log, s, e);
    var k := s.projected.value.sequence;
    assert (log + [e])[..k + 2] == log && (log + [e])[..k + 1] == log[..k + 1];
  }

  /** A projection step leaves the chain accepted, with the next shape. */
  lemma ProjectOnceAdvances(log: seq<RunEvent>, s: EvState, p: Pair)
    requires Ready(log, s) && PairIsNew(log, s.projected.value.sequence, p)
    ensures var k := s.projected.value.sequence;
            var after := ProjectOnce(log, s, p);
            && Ready(after, s) && log <= after && PairIsNew(after, k, p)
            && ShapeOf(after, k, p) == (match ShapeOf(log, k, p)
                                        case Some(Absent) => Some(ReviewOnly)
                                        case Some(ReviewOnly) => Some(Complete)
                                        case other => other)
  {
    hide TerminalChain, ShapeOf, PairIsNew, ReviewEvent, AuditEvent;
    match ShapeOf(log, s.projected.value.sequence, p) {
      case Some(Absent) => AppendedReviewFits(log, s, p);
      case Some(ReviewOnly) => AppendedAuditFits(log, s, p);
      case _ =>
    }
  }

  function Project(log: seq<RunEvent>, s: EvState, p: Pair): seq<RunEvent> {
    ProjectOnce(ProjectOnce(log, s, p), s, p)
  }

  /** From every interrupted projection, running it again ends with exactly the pair, and running it once
      more changes nothing. */
  lemma ProjectionIsCrashSafe(log: seq<RunEvent>, s: EvState, p: Pair)
    requires Ready(log, s) && PairIsNew(log, s.projected.value.sequence, p)
    requires ShapeOf(log, s.projected.value.sequence, p).Some?
    ensures var k := s.projected.value.sequence;
            var done := Project(log, s, p);
            && ShapeOf(done, k, p) == Some(Complete)
            && Project(ProjectOnce(log, s, p), s, p) == done
            && Project(done, s, p) == done
            && done[..k + 1] == log[..k + 1]
  {
    hide Ready, PairIsNew;
    var one := ProjectOnce(log, s, p);
    ProjectOnceAdvances(log, s, p);
    ProjectOnceAdvances(one, s, p);
    ProjectOnceAdvances(ProjectOnce(one, s, p), s, p);
  }

  // ---------------------------------------------------------------- any crashes, any other writers

  /** One projection step by anyone, or another event appended by someone else. */
  datatype Step = ProjectStep | OtherStep(e: RunEvent)

  function After(log: seq<RunEvent>, s: EvState, p: Pair, step: Step): seq<RunEvent> {
    match step
    case ProjectStep => ProjectOnce(log, s, p)
    case OtherStep(e) => if Unrelated(e, p) then log + [e] else log
  }

  function AfterAll(log: seq<RunEvent>, s: EvState, p: Pair, steps: seq<Step>): seq<RunEvent>
    decreases |steps|
  {
    if steps == [] then log
    else After(AfterAll(log, s, p, steps[..|steps| - 1]), s, p, steps[|steps| - 1])
  }

  /** What follows `k` begins with nothing of the pair, the review event, or the review and then the audit
      event; everything else is unrelated, so neither event occurs twice. */
  predicate BeginsWithPair(log: seq<RunEvent>, k: int, p: Pair) {
    && 0 <= k < |log|
    && (|| UnrelatedFrom(log, k + 1, p)
        || (&& |log| > k + 1 && log[k + 1] == ReviewEvent(log[..k + 1], p)
            && (|| UnrelatedFrom(log, k + 2, p)
                || (|log| > k + 2 && log[k + 2] == AuditEvent(log[..k + 2], p) && UnrelatedFrom(log, k + 3, p)))))
  }

  lemma UnrelatedAppends(log: seq<RunEvent>, i: int, p: Pair, e: RunEvent)
    requires 0 <= i && UnrelatedFrom(log, i, p) && (Unrelated(e, p) || |log| < i)
    ensures UnrelatedFrom(log + [e], i, p)
  {
  }

  lemma OtherKeepsBeginning(log: seq<RunEvent>, k: int, p: Pair, e: RunEvent)
    requires BeginsWithPair(log, k, p) && Unrelated(e, p)
    ensures BeginsWithPair(log + [e], k, p)
  {
    var after := log + [e];
    assert after[..k + 1] == log[..k + 1];
    if |log| > k + 1 { assert after[..k + 2] == log[..k + 2] && after[k + 1] == log[k + 1]; }
    if |log| > k + 2 { assert after[k + 2] == log[k + 2]; }
    if UnrelatedFrom(log, k + 1, p) { UnrelatedAppends(log, k + 1, p, e); }
    else if UnrelatedFrom(log, k + 2, p) { UnrelatedAppends(log, k + 2, p, e); }
    else { UnrelatedAppends(log, k + 3, p, e); }
  }

  lemma ProjectKeepsBeginning(log: seq<RunEvent>, s: EvState, p: Pair)
    requires s.projected.Some? && BeginsWithPair(log, s.projected.value.sequence, p)
    ensures BeginsWithPair(ProjectOnce(log, s, p), s.projected.value.sequence, p)
  {
    hide TerminalChain;
    var k := s.projected.value.sequence;
    var after := ProjectOnce(log, s, p);
    if after != log {
      assert after[..k + 1] == log[..k + 1];
      if |log| == k + 2 { assert after[..k + 2] == log == log[..k + 2]; } else { assert log[..k + 1] == log; }
    }
  }

  /** Over every interleaving of projection steps, crashes between them and other writers, the log after the
      terminal event begins with nothing of the pair, the review event, or the pair; nothing is lost. */
  lemma {:induction false} DecisionsAreProjectedInOrder(log: seq<RunEvent>, s: EvState, p: Pair, steps: seq<Step>)
    requires s.projected.Some? && BeginsWithPair(log, s.projected.value.sequence, p)
    ensures BeginsWithPair(AfterAll(log, s, p, steps), s.projected.value.sequence, p)
    ensures log <= AfterAll(log, s, p, steps)
    decreases |steps|
  {
    hide ProjectOnce;
    if steps != [] {
      var front := steps[..|steps| - 1];
      DecisionsAreProjectedInOrder(log, s, p, front);
      var before := AfterAll(log, s, p, front);
      ProjectKeepsBeginning(before, s, p);
      ProjectOnlyAppends(before, s, p);
      if steps[|steps| - 1].OtherStep? && Unrelated(steps[|steps| - 1].e, p) {
        OtherKeepsBeginning(before, s.projected.value.sequence, p, steps[|steps| - 1].e);
      }
    }
  }

  lemma ProjectOnlyAppends(log: seq<RunEvent>, s: EvState, p: Pair)
    ensures log <= ProjectOnce(log, s, p)
  {
    hide TerminalChain;
  }

  /** In such a log each of the two events occurs at most once. */
  lemma PairOccursAtMostOnce(log: seq<RunEvent>, k: int, p: Pair, i: int, j: int)
    requires BeginsWithPair(log, k, p) && k < i < |log| && k < j < |log|
    ensures log[i].id == log[j].id == ReviewEventId(p.reviewResult) ==> i == j
    ensures log[i].id == log[j].id == AuditEventId(p.auditResult) ==> i == j
  {
    assert UnrelatedFrom(log, k + 1, p) ==> Unrelated(log[i], p) && Unrelated(log[j], p);
    assert UnrelatedFrom(log, k + 2, p) && i > k + 1 ==> Unrelated(log[i], p);
    assert UnrelatedFrom(log, k + 2, p) && j > k + 1 ==> Unrelated(log[j], p);
    assert UnrelatedFrom(log, k + 3, p) && i > k + 2 ==> Unrelated(log[i], p);
    assert UnrelatedFrom(log, k + 3, p) && j > k + 2 ==> Unrelated(log[j], p);
  }

  /** A run that needed a retry can pass review and audit, but its pair is never projected: the chain of its
      phase events is refused, and with it every projection step. */
  lemma RetriedRunsAreNeverProjected(base: seq<RunEvent>, actions: seq<Action>, p: Pair)
    requires ReadableRun(base) && PhaseEvents(base) == [] && UniqueIds(base)
    requires var w := Run(Start(base), actions);
             && w.state.Some? && w.state.value.phase.Reviewing? && w.state.value.pending.None?
             && w.state.value.attempt > 1
    ensures var w := Run(Start(base), actions);
            w.state.Some? && !Ready(w.log, w.state.value) && Project(w.log, w.state.value, p) == w.log
  {
    hide Run, TerminalChain, ReadableRun, PhaseEvents, UniqueIds, GoodHead;
    FinishedRunIsAcceptedIff(base, actions);
  }

  // ---------------------------------------------------------------- the projection itself

  class DecisionLog {
    var events: seq<RunEvent>

    constructor (log: seq<RunEvent>)
      ensures events == log
    {
      events := log;
    }

    /** Reads the log, appends what is missing of the pair and checks after each append what is there now. */
    method ProjectPassingPair(s: EvState, p: Pair) returns (ok: bool)
      requires s.projected.Some?
      requires 0 <= s.projected.value.sequence < |events| ==> PairIsNew(events, s.projected.value.sequence, p)
      modifies this
      ensures events == if old(Ready(events, s) && ShapeOf(events, s.projected.value.sequence, p).Some?)
                        then Project(old(events), s, p) else old(events)
      ensures ok <==> Ready(events, s) && ShapeOf(events, s.projected.value.sequence, p) == Some(Complete)
    {
      hide TerminalChain, ShapeOf, PairIsNew;
      var k := s.projected.value.sequence;
      if !Ready(events, s) { return false; }
      var shape := Classify(events, k, p);
      if shape.None? { return false; }
      ProjectOnceAdvances(events, s, p);
      ProjectOnceAdvances(ProjectOnce(events, s, p), s, p);
      if shape == Some(Absent) {
        events := events + [ReviewEvent(events, p)];
        if !Ready(events, s) { return false; }
        shape := Classify(events, k, p);
        if shape != Some(ReviewOnly) { return false; }
      }
      if shape == Some(ReviewOnly) {
        events := events + [AuditEvent(events, p)];
        if !Ready(events, s) { return false; }
        shape := Classify(events, k, p);
      }
      ok := shape == Some(Complete);
    }
  }
}
