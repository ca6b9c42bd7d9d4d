/**
  The guards of `Review` against the text of the triggers and CHECK constraints that they model:
  joins and EXISTS over rows, column by column, in three-valued logic.
*/
module ReviewSql {
  import opened Assets
  import opened Basics
  import opened Releases
  import opened Review
  import opened ReviewLog
  import opened Sql

  // -------------------------------------------------------------------- review_decisions

  /** The three CHECKs of migration 0006 on the columns of the chain. */
  predicate DecisionChecks(d: Decision) {
    && Passes(Lt(Some(0), Some(d.revision)))
    && Passes(Any([
         All([Eq(Some(d.revision), Some(1)), IsNull(d.supersedesRevision), IsNull(d.supersedesId)]),
         All([Lt(Some(1), Some(d.revision)), Eq(d.supersedesRevision, Some(d.revision - 1)), Not(IsNull(d.supersedesId))])]))
  }

  lemma DecisionChecksAreSql(d: Decision)
    ensures ChecksPass(d) <==> DecisionChecks(d)
  {
  }

  /** review_decisions_guard_late_insert. */
  predicate LateDecision(t: Tables, d: Decision) {
    !exists id :: id in t.tasks
      && Holds(All([Eq(Some(id), Some(d.task)), Eq(Some(t.tasks[id].identity.scoringRun), Some(d.run)),
                    Of(t.tasks[id].state == Open)]))
  }

  /** The unique keys, and the foreign keys to the task with its run, to the ranking and to the prior revision. */
  predicate DecisionKeys(t: Tables, d: Decision) {
    && (exists id :: id in t.tasks && id == d.task && t.tasks[id].identity.scoringRun == d.run)
    && (exists k :: k in t.rankings && k.0 == d.run && k.1 == d.asset)
    && (d.supersedesRevision.None? || d.supersedesId.None?
        || exists p :: p in t.decisions && p.task == d.task && p.asset == d.asset
                         && Some(p.revision) == d.supersedesRevision && Some(p.id) == d.supersedesId)
    && forall e :: e in t.decisions ==>
         && e.id != d.id
         && (e.task, e.asset, e.revision) != (d.task, d.asset, d.revision)
         && !Holds(Eq(e.supersedesId, d.supersedesId))
  }

  /** INSERT of a decision. */
  lemma DecisionInsertIsSql(t: Tables, d: Decision)
    ensures Execute(t, InsertDecision(d)).Some? <==> DecisionChecks(d) && DecisionKeys(t, d) && !LateDecision(t, d)
  {
    DecisionChecksAreSql(d);
    if DecisionAdmitted(t, d) {
      assert d.task in t.tasks && (d.run, d.asset) in t.rankings;
      if d.supersedesRevision.Some? && d.supersedesId.Some? {
        var p :| p in t.decisions && Supersedes(d, p);
      }
    }
    if DecisionKeys(t, d) && !LateDecision(t, d) && d.supersedesRevision.Some? && d.supersedesId.Some? {
      var p :| p in t.decisions && p.task == d.task && p.asset == d.asset
               && Some(p.revision) == d.supersedesRevision && Some(p.id) == d.supersedesId;
      assert Supersedes(d, p);
    }
  }

  /** The rows that the subquery counts: accepts without a newer decision of the task and asset. */
  ghost function Counted(t: Tables, id: Id): set<Decision> {
    set d | d in t.decisions && d.task == id && d.verdict == Accept && !HasNewer(t, d)
  }

  predicate HasNewer(t: Tables, d: Decision) {
    exists newer :: newer in t.decisions && newer.task == d.task && newer.asset == d.asset && newer.revision > d.revision
  }

  lemma CountedAreAccepted(t: Tables, id: Id)
    ensures Counted(t, id) == AcceptedRows(t.decisions, id)
    ensures forall d :: HasNewer(t, d) <==> !NoNewer(t.decisions, d)
  {
  }

  // -------------------------------------------------------------------- review_tasks

  /** The CHECKs of migrations 0006 and 0008. */
  predicate TaskRowChecks(t: Task) {
    && t.desired.Some? // NOT NULL
    && Passes(Lt(Some(0), Some(t.identity.releaseVersionNo)))
    && Passes(Lt(Some(0), t.desired)) && Passes(Lt(Some(0), Some(t.identity.rankedAssetCount)))
    && Passes(Le(t.desired, Some(t.identity.rankedAssetCount)))
    && Passes(Lt(Some(0), Some(t.lockVersion)))
    && Passes(Any([
         All([Of(t.state == Open), IsNull(t.completedBy), IsNull(t.completedAt), IsNull(t.cancelledBy), IsNull(t.cancelledAt)]),
         All([Of(t.state == Completed), Not(IsNull(t.completedBy)), Not(IsNull(t.completedAt)),
              IsNull(t.cancelledBy), IsNull(t.cancelledAt)]),
         All([Of(t.state == TaskState.Cancelled), IsNull(t.completedBy), IsNull(t.completedAt),
              Not(IsNull(t.cancelledBy)), Not(IsNull(t.cancelledAt))])]))
    && Passes(Any([IsNull(t.completedAt), Le(Some(t.identity.createdAt), t.completedAt)]))
    && Passes(Any([IsNull(t.cancelledAt), Le(Some(t.identity.createdAt), t.cancelledAt)]))
    && Passes(Eq(Some(|t.identity.rankingManifest|), Some(64)))
  }

  lemma TaskChecksAreSql(t: Task)
    ensures TaskChecks(t) <==> TaskRowChecks(t)
  {
  }

  /** The first CASE expression of review_tasks_guard_update in all its versions, but for the target. */
  predicate IdentityRaises(was: Task, now: Task) {
    var o, n := was.identity, now.identity;
    Holds(Any([
      Of(was.state != Open), Ne(Some(now.lockVersion), Some(was.lockVersion + 1)),
      Distinct(o.releaseVersion, n.releaseVersion), Distinct(o.releaseVersionNo, n.releaseVersionNo),
      Distinct(o.releaseSpecification, n.releaseSpecification), Distinct(o.scoringRun, n.scoringRun),
      Distinct(o.scoringConfig, n.scoringConfig), Distinct(o.inputManifest, n.inputManifest),
      Distinct(o.rankingManifest, n.rankingManifest), Distinct(o.rankedAssetCount, n.rankedAssetCount),
      Distinct(o.createdBy, n.createdBy), Distinct(o.createdAt, n.createdAt)]))
  }

  /** The two last CASE expressions since migration 0018; `accepted` is the count of the subquery. */
  predicate ShrinkRaises(was: Task, now: Task, accepted: int) {
    || Holds(All([Of(now.state == Completed),
                  Any([IsNull(now.desired), Le(now.desired, Some(0)), Lt(was.desired, now.desired)])]))
    || Holds(All([Of(now.state == Completed), Ne(Some(accepted), now.desired)]))
  }

  predicate Raises0008(was: Task, now: Task, accepted: int) {
    || IdentityRaises(was, now) || Holds(Distinct(was.desired, now.desired))
    || Holds(All([Of(now.state == Completed), Ne(Some(accepted), was.desired)]))
  }

  predicate Raises0018(was: Task, now: Task, accepted: int) {
    || IdentityRaises(was, now)
    || Holds(All([Distinct(was.desired, now.desired), Distinct(now.state, Completed)]))
    || ShrinkRaises(was, now, accepted)
  }

  predicate TaskGuardRaises(was: Task, now: Task, accepted: int) {
    || IdentityRaises(was, now)
    || Holds(All([
         Distinct(was.desired, now.desired), Of(now.state == Open),
         Any([IsNull(now.desired), Lt(now.desired, was.desired), Lt(Some(was.identity.rankedAssetCount), now.desired)])]))
    || Holds(All([Distinct(was.desired, now.desired), Of(now.state !in {Open, Completed})]))
    || ShrinkRaises(was, now, accepted)
  }

  /** The guards of migrations 0008, 0018 and 0039, and the one that the downgrade of 0039 restores. */
  lemma TaskGuardIsSql(was: Task, now: Task, accepted: int)
    ensures Guard0008(was, now, accepted) <==> !Raises0008(was, now, accepted)
    ensures Guard0018(was, now, accepted) <==> !Raises0018(was, now, accepted)
    ensures Guard0039(was, now, accepted) <==> !TaskGuardRaises(was, now, accepted)
    ensures Guard0039Downgraded(was, now, accepted) <==> !Raises0018(was, now, accepted)
  {
  }

  // -------------------------------------------------------------------- release_selections

  /** length(trim(text)) > 0. */
  predicate Trimmed(text: string) {
    exists c :: c in text && c != ' '
  }

  /** The CHECKs of migration 0009. */
  predicate SelectionRowChecks(s: Selection) {
    && s.decisionRevision > 0 && s.rank > 0 && s.displayOrder > 0
    && |s.rankingManifest| == 64 && |s.source.sha256| == 64
    && Trimmed(s.source.backend) && Trimmed(s.source.bucket) && Trimmed(s.source.objectKey)
    && Trimmed(s.source.objectVersionId) && Trimmed(s.source.contentType) && Trimmed(s.source.imageFormat)
    && s.source.width > 0 && s.source.height > 0 && s.source.byteSize > 0
    && s.frozenAt >= s.sourceAvailableAt
  }

  predicate SelectionRowKeys(t: Tables, s: Selection) {
    forall o :: o in t.selections ==>
      && o.id != s.id && o.decision != s.decision
      && (o.task, o.asset) != (s.task, s.asset) && (o.task, o.displayOrder) != (s.task, s.displayOrder)
  }

  lemma SelectionChecksAreSql(t: Tables, s: Selection)
    ensures SelectionChecks(t, s) <==> SelectionRowChecks(s) && SelectionRowKeys(t, s)
  {
    assert forall text :: Blank(text) <==> !Trimmed(text);
  }

  /** The ten copied columns of an asset are what the row says, none of them NULL. */
  predicate SameColumns(a: Asset, s: Storage) {
    && a.storage.Some?
    && var c := a.storage.value;
    && c.backend == s.backend && c.bucket == s.bucket && c.objectKey == s.objectKey && c.objectVersionId == s.objectVersionId
    && c.sha256 == s.sha256 && c.contentType == s.contentType && c.imageFormat == s.imageFormat
    && c.width == s.width && c.height == s.height && c.byteSize == s.byteSize
  }

  /** The SELECT of release_selections_guard_insert finds a row: task, version, decision, ranking and asset. */
  ghost predicate SelectionFound(t: Tables, s: Selection) {
    exists task, d, k :: task in t.tasks && d in t.decisions && k in t.rankings
      && task == s.task && t.tasks[task].identity.releaseVersion in t.versions
      && d.id == s.decision && d.task == task && d.asset == s.asset && d.revision == s.decisionRevision
      && d.run == t.tasks[task].identity.scoringRun
      && k == (t.tasks[task].identity.scoringRun, s.asset)
      && s.asset in t.assets
      && t.tasks[task].state == Open
      && t.tasks[task].identity.scoringRun == s.run
      && t.tasks[task].identity.releaseVersion == s.version
      && t.tasks[task].identity.rankingManifest == s.rankingManifest
      && d.verdict == Accept && !HasNewer(t, d)
      && t.rankings[k] == s.rank
      && t.assets[s.asset].release == t.versions[t.tasks[task].identity.releaseVersion].release
      && t.assets[s.asset].kind == RawMaster && t.assets[s.asset].available
      && SameColumns(t.assets[s.asset], s.source) && t.assets[s.asset].availableAt == Some(s.sourceAvailableAt)
  }

  lemma SelectionGuardIsSql(t: Tables, s: Selection)
    ensures SelectionGuard(t, s) <==> SelectionFound(t, s)
  {
    CountedAreAccepted(t, s.task);
    if SelectionGuard(t, s) {
      var d :| d in t.decisions
          && d.id == s.decision && d.task == s.task && d.asset == s.asset && d.revision == s.decisionRevision
          && d.run == s.run && d.verdict.Accept? && NoNewer(t.decisions, d);
      assert s.task in t.tasks && (s.run, s.asset) in t.rankings;
    }
  }

  /** INSERT of a selection. */
  lemma SelectionInsertIsSql(t: Tables, s: Selection)
    ensures Execute(t, InsertSelection(s)).Some? <==> SelectionRowChecks(s) && SelectionRowKeys(t, s) && SelectionFound(t, s)
  {
    SelectionChecksAreSql(t, s);
    SelectionGuardIsSql(t, s);
  }

  // -------------------------------------------------------------------- completion

  /** The joined row of the completion trigger is wrong in some column. */
  predicate WrongRow(t: Tables, id: Id, was: Task, now: Task, s: Selection, d: Decision)
    requires (s.run, s.asset) in t.rankings && s.version in t.versions && s.asset in t.assets
  {
    var a := t.assets[s.asset];
    || s.run != was.identity.scoringRun || s.version != was.identity.releaseVersion
    || s.rankingManifest != was.identity.rankingManifest || Some(s.frozenAt) != now.completedAt
    || d.task != id || d.asset != s.asset || d.revision != s.decisionRevision
    || d.verdict != Accept || HasNewer(t, d)
    || t.rankings[(s.run, s.asset)] != s.rank
    || a.release != t.versions[s.version].release || a.kind != RawMaster || !a.available
    || !SameColumns(a, s.source) || a.availableAt != Some(s.sourceAvailableAt)
  }

  function Orders(rows: set<Selection>): set<int> {
    set s | s in rows :: s.displayOrder
  }

  /** WHERE review_task_id = OLD.id. */
  function RowsOf(t: Tables, id: Id): set<Selection> {
    set s | s in t.selections && s.task == id
  }

  /** The release of the version is current and in review. */
  predicate ReleaseFound(t: Tables, version: Id) {
    exists v, r :: v in t.versions && r in t.releases && r == t.versions[v].release && v == version
      && t.releases[r].currentVersionNo == t.versions[v].no && t.releases[r].phase == Reviewing
  }

  predicate WrongRowFound(t: Tables, id: Id, was: Task, now: Task) {
    exists s, d :: s in RowsOf(t, id) && d in t.decisions && d.id == s.decision
      && (s.run, s.asset) in t.rankings && s.version in t.versions && s.asset in t.assets
      && WrongRow(t, id, was, now, s, d)
  }

  /** An accepted decision without a selection. */
  predicate UnselectedFound(t: Tables, id: Id) {
    exists d :: d in t.decisions && d.task == id && d.verdict == Accept && !HasNewer(t, d)
      && !exists s :: s in RowsOf(t, id) && s.decision == d.id
  }

  predicate MisorderedFound(t: Tables, id: Id) {
    exists earlier, later :: earlier in RowsOf(t, id) && later in RowsOf(t, id)
      && earlier.rank < later.rank && earlier.displayOrder > later.displayOrder
  }

  /** review_tasks_validate_selection_completion of migration 0018. */
  ghost predicate CompletionRaises(t: Tables, id: Id, was: Task, now: Task) {
    || Holds(Ne(Some(|RowsOf(t, id)|), now.desired))
    || Holds(Ne(Min(Orders(RowsOf(t, id))), Some(1))) || Holds(Ne(Max(Orders(RowsOf(t, id))), now.desired))
    || !ReleaseFound(t, was.identity.releaseVersion)
    || WrongRowFound(t, id, was, now) || UnselectedFound(t, id) || MisorderedFound(t, id)
  }

  lemma ReleaseFoundIsCurrent(t: Tables, version: Id)
    ensures ReleaseFound(t, version) <==> CurrentIn(t.releases, t.versions, version, Reviewing)
  {
  }

  lemma RowsSoundIsSql(t: Tables, id: Id, was: Task, now: Task)
    ensures RowsSound(t, id, was, now) <==> !WrongRowFound(t, id, was, now)
  {
    CountedAreAccepted(t, id);
    assert RowsOf(t, id) == SelectionsOf(t, id);
    forall s, d | s in SelectionsOf(t, id) && d in t.decisions && Joins(t, s, d)
      ensures JoinedRowSound(t, id, was, now, s, d) <==> !WrongRow(t, id, was, now, s, d)
    {
    }
  }

  lemma CoverageIsSql(t: Tables, id: Id)
    ensures (forall d :: d in AcceptedRows(t.decisions, id) ==> Covered(SelectionsOf(t, id), d)) <==> !UnselectedFound(t, id)
    ensures OrderedByRank(SelectionsOf(t, id)) <==> !MisorderedFound(t, id)
  {
    CountedAreAccepted(t, id);
    assert RowsOf(t, id) == SelectionsOf(t, id);
    forall d | d in AcceptedRows(t.decisions, id)
      ensures Covered(SelectionsOf(t, id), d) <==> exists s :: s in RowsOf(t, id) && s.decision == d.id
    {
    }
  }

  /** count, min and max, where NULL makes no comparison true. */
  lemma NumberedIsSql(rows: set<Selection>, desired: Option<int>)
    requires desired.Some?
    ensures Numbered(rows, desired) <==>
            && !Holds(Ne(Some(|rows|), desired))
            && !Holds(Ne(Min(Orders(rows)), Some(1))) && !Holds(Ne(Max(Orders(rows)), desired))
  {
    assert forall s :: s in rows ==> s.displayOrder in Orders(rows);
    if rows == {} {
      assert forall m :: m !in Orders(rows);
    } else {
      var one :| one in rows;
      MinAndMaxExist(Orders(rows), one.displayOrder);
    }
  }

  lemma CompletionGuardIsSql(t: Tables, id: Id, was: Task, now: Task)
    requires now.desired.Some?
    ensures CompletionGuard(t, id, was, now) <==> !CompletionRaises(t, id, was, now)
  {
    assert RowsOf(t, id) == SelectionsOf(t, id);
    NumberedIsSql(RowsOf(t, id), now.desired);
    ReleaseFoundIsCurrent(t, was.identity.releaseVersion);
    RowsSoundIsSql(t, id, was, now);
    CoverageIsSql(t, id);
  }

  /** UPDATE of a review: the CHECKs and the two BEFORE triggers, one of them with its WHEN clause. */
  lemma TaskUpdateIsSql(t: Tables, id: Id, now: Task)
    requires id in t.tasks
    ensures Execute(t, UpdateTask(id, now)).Some? <==>
            && TaskRowChecks(now) && !TaskGuardRaises(t.tasks[id], now, |Counted(t, id)|)
            && !(t.tasks[id].state == Open && now.state == Completed && CompletionRaises(t, id, t.tasks[id], now))
  {
    CountedAreAccepted(t, id);
    TaskChecksAreSql(now);
    TaskGuardIsSql(t.tasks[id], now, |Counted(t, id)|);
    if TaskRowChecks(now) { CompletionGuardIsSql(t, id, t.tasks[id], now); }
    if TaskUpdateAdmitted(t, id, now) && now.state == Completed { CompletionApproves(t, id, now); }
  }

  /** INSERT of an open review and of a ranking: the CHECKs, the unique keys and the foreign keys. */
  lemma InsertsAreSql(t: Tables, id: Id, task: Task, run: Id, asset: Id, rank: int)
    ensures Execute(t, InsertTask(id, task)).Some? <==>
            && id !in t.tasks && task.state == Open && TaskRowChecks(task)
            && (exists v :: v in t.versions && v == task.identity.releaseVersion && t.versions[v].release in t.releases)
            && !exists o :: o in t.tasks && t.tasks[o].identity.scoringRun == task.identity.scoringRun
    ensures Execute(t, InsertRanking(run, asset, rank)).Some? <==>
            && rank > 0 && asset in t.assets && (run, asset) !in t.rankings
            && !exists k :: k in t.rankings && k.0 == run && t.rankings[k] == rank
  {
    TaskChecksAreSql(task);
  }
}
