/**
  The publication effect log and the provider guard: the PostgreSQL triggers and the
  constraints of migration 0010.
*/
module Publication {
  import opened Basics

  datatype StepKind = XMediaUpload | XCreatePost | PatreonPackage | PatreonHandoff

  datatype EventType = Started | Succeeded | Retryable | Unknown | Terminal

  datatype Event = Event(
    step: Id, requestNo: int, stepKind: StepKind, eventType: EventType, isCompletion: bool, guardEpoch: int,
    remoteIdentifier: Option<string>, remoteExpiresAt: Option<int>, errorCode: Option<string>)

  type Log = seq<Event>

  // -------------------------------------------------------------------- constraints and triggers

  /** The CHECK constraints of one event. */
  predicate EventChecks(e: Event) {
    && e.requestNo > 0 && e.guardEpoch > 0
    && match e.eventType
       case Started => !e.isCompletion && e.remoteIdentifier.None? && e.remoteExpiresAt.None? && e.errorCode.None?
       case Succeeded => e.isCompletion && e.remoteIdentifier.Some? && e.errorCode.None?
       case _ => e.isCompletion && e.errorCode.Some?
  }

  predicate SameKey(e: Event, f: Event) {
    e.step == f.step && e.requestNo == f.requestNo && e.isCompletion == f.isCompletion
  }

  /** What the table itself demands, and all that SQLite does besides rejecting UPDATE and DELETE. */
  predicate TableAdmits(log: Log, e: Event) {
    EventChecks(e) && forall f :: f in log ==> !SameKey(f, e)
  }

  /** max(request_no) of the started events of a step; None for NULL. */
  function MaxStarted(log: Log, step: Id): Option<int> {
    if log == [] then None
    else
      var before, e := MaxStarted(log[..|log| - 1], step), log[|log| - 1];
      if e.step != step || !e.eventType.Started? then before
      else if before.None? || e.requestNo > before.value then Some(e.requestNo)
      else before
  }

  /** COALESCE(max + 1, 1). */
  function NextRequest(log: Log, step: Id): int {
    var last := MaxStarted(log, step);
    if last.Some? then last.value + 1 else 1
  }

  predicate StartOf(s: Event, e: Event) {
    s.step == e.step && s.requestNo == e.requestNo && s.eventType.Started? && s.guardEpoch == e.guardEpoch
  }

  predicate HasStart(log: Log, e: Event) {
    exists s :: s in log && StartOf(s, e)
  }

  /** A start takes the next request number of its step; a completion has its start. */
  predicate InSequence(log: Log, e: Event) {
    if e.eventType.Started? then e.requestNo == NextRequest(log, e.step) else HasStart(log, e)
  }

  /** The PostgreSQL trigger on INSERT; UPDATE and DELETE are rejected. */
  predicate TriggerAdmits(log: Log, steps: map<Id, StepKind>, e: Event) {
    && e.step in steps && steps[e.step] == e.stepKind && e.stepKind in {XMediaUpload, XCreatePost}
    && InSequence(log, e)
  }

  /** Logs that the table alone admits, event by event. */
  ghost predicate TableLog(log: Log) {
    log != [] ==> TableLog(log[..|log| - 1]) && TableAdmits(log[..|log| - 1], log[|log| - 1])
  }

  /** Logs that the table and the trigger admit. */
  ghost predicate WellFormed(log: Log, steps: map<Id, StepKind>) {
    log != [] ==>
      && WellFormed(log[..|log| - 1], steps)
      && TableAdmits(log[..|log| - 1], log[|log| - 1])
      && TriggerAdmits(log[..|log| - 1], steps, log[|log| - 1])
  }

  // -------------------------------------------------------------------- the order of a log

  /** The request numbers of a step in the order their starts were recorded. */
  function Starts(log: Log, step: Id): seq<int> {
    if log == [] then []
    else
      var before, e := Starts(log[..|log| - 1], step), log[|log| - 1];
      if e.step == step && e.eventType.Started? then before + [e.requestNo] else before
  }

  /** The starts of the step are recorded as 1, 2, ..., k. */
  ghost predicate CountsUp(log: Log, step: Id) {
    forall i :: 0 <= i < |Starts(log, step)| ==> Starts(log, step)[i] == i + 1
  }

  /** Event i comes after a start of its request under the same guard epoch. */
  ghost predicate FollowsStart(log: Log, i: nat)
    requires i < |log|
  {
    exists j :: 0 <= j < i && StartOf(log[j], log[i])
  }

  ghost predicate InOrder(log: Log) {
    && (forall step :: CountsUp(log, step))
    && (forall i :: 0 <= i < |log| && log[i].isCompletion ==> FollowsStart(log, i))
  }

  /** Every event was in sequence when it was inserted. */
  ghost predicate Sequential(log: Log) {
    log != [] ==> Sequential(log[..|log| - 1]) && InSequence(log[..|log| - 1], log[|log| - 1])
  }

  lemma {:induction false} NextAfterCount(log: Log, step: Id)
    requires CountsUp(log, step)
    ensures NextRequest(log, step) == |Starts(log, step)| + 1
  {
    if log != [] {
      var before := log[..|log| - 1];
      assert Starts(before, step) <= Starts(log, step);
      assert forall i :: 0 <= i < |Starts(before, step)| ==> Starts(before, step)[i] == Starts(log, step)[i];
      NextAfterCount(before, step);
      var e := log[|log| - 1];
      if e.step == step && e.eventType.Started? {
        assert Starts(log, step)[|Starts(before, step)|] == e.requestNo;
      }
    }
  }

  lemma StartsGrow(log: Log, e: Event, step: Id)
    ensures Starts(log + [e], step)
            == Starts(log, step) + if e.step == step && e.eventType.Started? then [e.requestNo] else []
  {
    assert (log + [e])[..|log|] == log;
  }

  lemma OneMoreCounts(log: Log, e: Event, step: Id)
    ensures CountsUp(log + [e], step) <==>
            CountsUp(log, step) && (e.step == step && e.eventType.Started? ==> e.requestNo == NextRequest(log, step))
  {
    StartsGrow(log, e, step);
    var starts := Starts(log, step);
    assert forall i :: 0 <= i < |starts| ==> Starts(log + [e], step)[i] == starts[i];
    if CountsUp(log, step) { NextAfterCount(log, step); }
    if e.step == step && e.eventType.Started? {
      assert Starts(log + [e], step)[|starts|] == e.requestNo;
    }
  }

  lemma OneMoreFollows(log: Log, e: Event, i: nat)
    requires i <= |log|
    ensures i < |log| ==> (FollowsStart(log + [e], i) <==> FollowsStart(log, i))
    ensures i == |log| ==> (FollowsStart(log + [e], i) <==> HasStart(log, e))
  {
    var longer := log + [e];
    assert forall j :: 0 <= j < |log| ==> longer[j] == log[j];
    if i == |log| && HasStart(log, e) {
      var s :| s in log && StartOf(s, e);
      var j :| 0 <= j < |log| && log[j] == s;
      assert StartOf(longer[j], longer[i]);
    }
  }

  /** One INSERT keeps the order exactly when its event is in sequence. */
  lemma InsertKeepsOrder(log: Log, e: Event)
    requires EventChecks(e)
    ensures InOrder(log + [e]) <==> InOrder(log) && InSequence(log, e)
  {
    var longer := log + [e];
    forall step
      ensures CountsUp(longer, step) <==>
              CountsUp(log, step) && (e.step == step && e.eventType.Started? ==> e.requestNo == NextRequest(log, step))
    {
      OneMoreCounts(log, e, step);
    }
    forall i | 0 <= i <= |log|
      ensures i < |log| ==> longer[i] == log[i] && (FollowsStart(longer, i) <==> FollowsStart(log, i))
      ensures i == |log| ==> longer[i] == e && (FollowsStart(longer, i) <==> HasStart(log, e))
    {
      OneMoreFollows(log, e, i);
    }
    if InOrder(longer) {
      assert CountsUp(longer, e.step);
      assert longer[|log|].isCompletion ==> FollowsStart(longer, |log|);
      forall i | 0 <= i < |log| && log[i].isCompletion
        ensures FollowsStart(log, i)
      {
        assert longer[i].isCompletion && FollowsStart(longer, i);
      }
    }
  }

  /**
    A log that the table alone admits, as on SQLite, counts its starts 1..k and has a start
    before every completion exactly when each event was in sequence when it was inserted.
  */
  lemma {:induction false} OrderedExactlyWhenSequential(log: Log)
    requires TableLog(log)
    ensures InOrder(log) <==> Sequential(log)
  {
    if log != [] {
      var before, e := log[..|log| - 1], log[|log| - 1];
      OrderedExactlyWhenSequential(before);
      InsertKeepsOrder(before, e);
      assert before + [e] == log;
    }
  }

  lemma {:induction false} TriggerKeepsSequence(log: Log, steps: map<Id, StepKind>)
    requires WellFormed(log, steps)
    ensures TableLog(log) && Sequential(log)
  {
    if log != [] { TriggerKeepsSequence(log[..|log| - 1], steps); }
  }

  /** With the trigger, the starts of every step are recorded as 1, 2, ..., k. */
  lemma StartsCountUp(log: Log, steps: map<Id, StepKind>, step: Id)
    requires WellFormed(log, steps)
    ensures CountsUp(log, step) && NextRequest(log, step) == |Starts(log, step)| + 1
  {
    TriggerKeepsSequence(log, steps);
    OrderedExactlyWhenSequential(log);
    NextAfterCount(log, step);
  }

  /** With the trigger, a completion comes after a start of its request under the same guard epoch. */
  lemma CompletionFollowsStart(log: Log, steps: map<Id, StepKind>, i: nat)
    requires WellFormed(log, steps) && i < |log| && log[i].isCompletion
    ensures FollowsStart(log, i)
  {
    TriggerKeepsSequence(log, steps);
    OrderedExactlyWhenSequential(log);
  }

  // -------------------------------------------------------------------- completions

  lemma {:induction false} EventsPass(log: Log, i: nat)
    requires TableLog(log) && i < |log|
    ensures TableAdmits(log[..i], log[i])
  {
    var n := |log| - 1;
    if i < n {
      EventsPass(log[..n], i);
      assert log[..n][..i] == log[..i];
    }
  }

  lemma EarlierIsBefore(log: Log, i: nat, j: nat)
    requires i < j < |log|
    ensures log[i] in log[..j]
  {
    assert log[..j][i] == log[i];
  }

  /** The table alone gives a request one start and at most one completion. */
  lemma RequestPhasesUnique(log: Log, i: nat, j: nat)
    requires TableLog(log) && i < |log| && j < |log| && SameKey(log[i], log[j])
    ensures i == j
  {
    if i < j {
      EarlierIsBefore(log, i, j);
      EventsPass(log, j);
    } else if j < i {
      EarlierIsBefore(log, j, i);
      EventsPass(log, i);
    }
  }

  function Completions(log: Log, step: Id): set<Event> {
    set e | e in log && e.step == step && e.isCompletion
  }

  lemma {:induction false} StartsRecord(log: Log, e: Event)
    requires e in log && e.eventType.Started?
    ensures e.requestNo in Starts(log, e.step)
  {
    var before, last := log[..|log| - 1], log[|log| - 1];
    assert log == before + [last];
    if e in before { StartsRecord(before, e); }
  }

  /** A step never has more completions than starts: each completes another started request. */
  lemma CompletionsWithinStarts(log: Log, steps: map<Id, StepKind>, step: Id)
    requires WellFormed(log, steps)
    ensures |Completions(log, step)| <= |Starts(log, step)|
    ensures forall e :: e in Completions(log, step) ==> 1 <= e.requestNo <= |Starts(log, step)|
  {
    var completions, requests := Completions(log, step), set e | e in Completions(log, step) :: e.requestNo;
    StartsCountUp(log, steps, step);
    TriggerKeepsSequence(log, steps);
    forall e | e in completions
      ensures 1 <= e.requestNo <= |Starts(log, step)|
    {
      var i :| 0 <= i < |log| && log[i] == e;
      CompletionFollowsStart(log, steps, i);
      var j :| 0 <= j < i && StartOf(log[j], log[i]);
      StartsRecord(log, log[j]);
    }
    forall e, f | e in completions && f in completions && e.requestNo == f.requestNo
      ensures e == f
    {
      var i :| 0 <= i < |log| && log[i] == e;
      var j :| 0 <= j < |log| && log[j] == f;
      RequestPhasesUnique(log, i, j);
    }
    InjectiveImageSize(completions, requests, (e: Event) => e.requestNo);
    SubsetIsSmaller(requests, UpTo(|Starts(log, step)|));
  }

  /** Without the trigger, as on SQLite, a log may start at any request and complete what never started. */
  lemma TableAloneAllowsGaps(step: Id)
    ensures var start := Event(step, 7, XCreatePost, Started, false, 1, None, None, None);
            var stray := Event(step, 3, XCreatePost, Retryable, true, 1, None, None, Some("timeout"));
            && TableLog([start, stray]) && Starts([start, stray], step) == [7] && !HasStart([start, stray], stray)
  {
    var start := Event(step, 7, XCreatePost, Started, false, 1, None, None, None);
    var stray := Event(step, 3, XCreatePost, Retryable, true, 1, None, None, Some("timeout"));
    assert [start, stray][..1] == [start] && [start][..0] == [];
    assert Starts([], step) == [] && Starts([start], step) == [7];
  }

  class EffectLog {
    const steps: map<Id, StepKind>
    var events: Log

    ghost predicate Valid()
      reads this
    {
      WellFormed(events, steps)
    }

    constructor (steps: map<Id, StepKind>)
      ensures Valid() && this.steps == steps && events == []
    {
      this.steps := steps;
      events := [];
    }

    method Record(e: Event) returns (ok: bool)
      requires Valid()
      modifies this`events
      ensures Valid()
      ensures ok <==> TableAdmits(old(events), e) && TriggerAdmits(old(events), steps, e)
      ensures events == if ok then old(events) + [e] else old(events)
    {
      ok := TableAdmits(events, e) && TriggerAdmits(events, steps, e);
      if ok {
        assert (events + [e])[..|events|] == events;
        events := events + [e];
      }
    }
  }

  // -------------------------------------------------------------------- the provider guard

  datatype Guard = Guard(provider: string, enabled: bool, epoch: int, lockVersion: int, changedBy: Option<Id>, changedAt: int)

  const GLOBAL := "global"

  /** The row the migration inserts: stopped, with epoch and lock_version 1. */
  predicate Initial(g: Guard) {
    g.provider == GLOBAL && !g.enabled && g.epoch == 1 && g.lockVersion == 1 && g.changedBy.None?
  }

  /** The PostgreSQL trigger on UPDATE; `owners` are the active owners at that time. */
  predicate GuardMoves(was: Guard, now: Guard, owners: set<Id>) {
    && now.provider == was.provider
    && now.epoch == was.epoch + 1 && now.lockVersion == was.lockVersion + 1
    && !(now.changedAt <= was.changedAt)
    && now.changedBy.Some? && now.changedBy.value in owners
  }

  ghost predicate GuardHistory(rows: seq<Guard>, owners: seq<set<Id>>) {
    && |rows| == |owners| + 1 && Initial(rows[0])
    && forall n :: 0 <= n < |owners| ==> GuardMoves(rows[n], rows[n + 1], owners[n])
  }

  /**
    Epoch and lock version are both the number of the row, so an epoch names one row; times
    increase strictly; and publication is enabled only by an update of an active owner.
  */
  lemma {:induction false} EpochIsLockVersion(rows: seq<Guard>, owners: seq<set<Id>>, n: nat)
    requires GuardHistory(rows, owners) && n < |rows|
    ensures rows[n].epoch == rows[n].lockVersion == n + 1 && rows[n].provider == GLOBAL
    ensures rows[n].enabled ==> n > 0 && rows[n].changedBy.Some? && rows[n].changedBy.value in owners[n - 1]
    ensures forall k :: 0 <= k < n ==> rows[k].changedAt < rows[n].changedAt
  {
    if n > 0 {
      EpochIsLockVersion(rows, owners, n - 1);
      assert GuardMoves(rows[n - 1], rows[n], owners[n - 1]);
    }
  }
}
