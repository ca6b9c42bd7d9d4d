/**
  The guards of `Publication` against the text of the triggers and CHECK constraints of migration
  0010 that they model, in three-valued logic.
*/
module PublicationSql {
  import opened Basics
  import opened Publication
  import opened Sql

  // -------------------------------------------------------------------- publication_effect_events

  predicate EventRowChecks(e: Event) {
    var completion := Of(e.isCompletion);
    && Passes(Lt(Some(0), Some(e.requestNo))) && Passes(Lt(Some(0), Some(e.guardEpoch)))
    && Passes(Any([
         All([Of(e.eventType == Started), Not(completion), IsNull(e.remoteIdentifier), IsNull(e.remoteExpiresAt), IsNull(e.errorCode)]),
         All([Of(e.eventType == Succeeded), completion, Not(IsNull(e.remoteIdentifier)), IsNull(e.errorCode)]),
         All([Of(e.eventType in {Retryable, Unknown, Terminal}), completion, Not(IsNull(e.errorCode))])]))
  }

  /** The CHECKs and the unique key of the request phase. */
  lemma EventInsertIsSql(log: Log, e: Event)
    ensures TableAdmits(log, e) <==>
            && EventRowChecks(e)
            && forall f :: f in log ==> (f.step, f.requestNo, f.isCompletion) != (e.step, e.requestNo, e.isCompletion)
  {
    assert EventChecks(e) <==> EventRowChecks(e);
  }

  /** The request numbers of the started events of the step. */
  function StartedRequests(log: Log, step: Id): set<int> {
    set e | e in log && e.step == step && e.eventType == Started :: e.requestNo
  }

  lemma {:induction false} MaxStartedIsMax(log: Log, step: Id)
    ensures MaxStarted(log, step) == Max(StartedRequests(log, step))
  {
    var requests := StartedRequests(log, step);
    if log == [] {
      assert forall m :: m !in requests;
    } else {
      var before, e := log[..|log| - 1], log[|log| - 1];
      var earlier := StartedRequests(before, step);
      assert log == before + [e];
      MaxStartedIsMax(before, step);
      if e.step == step && e.eventType == Started {
        assert requests == earlier + {e.requestNo};
        MinAndMaxExist(requests, e.requestNo);
        if n :| n in earlier { MinAndMaxExist(earlier, n); }
      } else {
        assert requests == earlier;
      }
    }
  }

  /** COALESCE((SELECT max(request_no) + 1 ...), 1). */
  ghost function Next(log: Log, step: Id): int {
    var last := Max(StartedRequests(log, step));
    if last.Some? then last.value + 1 else 1
  }

  /** gen_automation_guard_publication_effect_event raises on INSERT. */
  ghost predicate EventRaises(log: Log, steps: map<Id, StepKind>, e: Event) {
    || !(exists s :: s in steps && s == e.step && steps[s] == e.stepKind && steps[s] in {XMediaUpload, XCreatePost})
    || (e.eventType == Started && Holds(Ne(Some(e.requestNo), Some(Next(log, e.step)))))
    || (e.eventType != Started
        && !exists s :: s in log && s.step == e.step && s.requestNo == e.requestNo && s.eventType == Started && s.guardEpoch == e.guardEpoch)
  }

  lemma EventGuardIsSql(log: Log, steps: map<Id, StepKind>, e: Event)
    ensures TriggerAdmits(log, steps, e) <==> !EventRaises(log, steps, e)
  {
    MaxStartedIsMax(log, e.step);
    if HasStart(log, e) {
      var s :| s in log && StartOf(s, e);
      assert s.step == e.step && s.eventType == Started;
    }
  }

  // -------------------------------------------------------------------- publication_provider_guards

  /** gen_automation_guard_publication_provider_guard raises on UPDATE; `owners` are the active owners. */
  predicate GuardRaises(was: Guard, now: Guard, owners: set<Id>) {
    || Holds(Any([
         Distinct(now.provider, was.provider), Ne(Some(now.epoch), Some(was.epoch + 1)),
         Ne(Some(now.lockVersion), Some(was.lockVersion + 1)), Le(Some(now.changedAt), Some(was.changedAt)),
         IsNull(now.changedBy)]))
    || !exists actor :: actor in owners && Holds(Eq(Some(actor), now.changedBy))
  }

  lemma GuardUpdateIsSql(was: Guard, now: Guard, owners: set<Id>)
    ensures GuardMoves(was, now, owners) <==> !GuardRaises(was, now, owners)
  {
  }
}
