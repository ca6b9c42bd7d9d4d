/**
  Review tasks, frozen selections and the approval of a release: the triggers of migrations
  0006, 0008, 0009, 0018 and 0039 as guarded statements over tables.  A statement and its
  triggers are atomic; an aborted one changes nothing.
*/
module Review {
  import opened Assets
  import opened Basics
  import opened ReviewLog
  import opened Releases

  datatype TaskState = Open | Completed | Cancelled

  datatype TaskIdentity = TaskIdentity(
    releaseVersion: Id, releaseVersionNo: int, releaseSpecification: string, scoringRun: Id, scoringConfig: string,
    inputManifest: string, rankingManifest: string, rankedAssetCount: int, createdBy: Id, createdAt: int)

  /** `desired` is None for NULL, which the guards test although the column rejects it. */
  datatype Task = Task(
    identity: TaskIdentity, desired: Option<int>, state: TaskState, lockVersion: int,
    completedBy: Option<Id>, completedAt: Option<int>, cancelledBy: Option<Id>, cancelledAt: Option<int>)

  datatype Selection = Selection(
    id: Id, task: Id, run: Id, decision: Id, decisionRevision: int, version: Id, asset: Id,
    rank: int, displayOrder: int, rankingManifest: string, source: Storage, sourceAvailableAt: int, frozenAt: int)

  datatype Tables = Tables(
    decisions: Log,
    tasks: map<Id, Task>,
    selections: set<Selection>,
    rankings: map<(Id, Id), int>,
    assets: AssetTable,
    releases: ReleaseTable,
    versions: VersionTable)

  // -------------------------------------------------------------------- review-task guards

  /** SQL `a < b`: not true when an operand is NULL. */
  predicate Less(a: Option<int>, b: Option<int>) {
    a.Some? && b.Some? && a.value < b.value
  }

  /** SQL `a <> b`: not true when an operand is NULL. */
  predicate Differs(a: Option<int>, b: Option<int>) {
    a.Some? && b.Some? && a != b
  }

  /** What every version of the guard demands of OLD and NEW. */
  predicate KeepsIdentity(was: Task, now: Task) {
    && was.state.Open?
    && now.lockVersion == was.lockVersion + 1
    && now.identity == was.identity
  }

  /** Migration 0008: the target is part of the identity. */
  predicate Guard0008(was: Task, now: Task, accepted: int) {
    && KeepsIdentity(was, now)
    && now.desired == was.desired
    && (now.state.Completed? ==> !Differs(Some(accepted), was.desired))
  }

  predicate ShrinksTo(was: Task, now: Task, accepted: int) {
    && now.desired.Some?
    && !(now.desired.value <= 0)
    && !Less(was.desired, now.desired)
    && !Differs(Some(accepted), now.desired)
  }

  /** Migration 0018: the target may shrink, only on completion. */
  predicate Guard0018(was: Task, now: Task, accepted: int) {
    && KeepsIdentity(was, now)
    && (now.desired != was.desired ==> now.state.Completed?)
    && (now.state.Completed? ==> ShrinksTo(was, now, accepted))
  }

  /** Migration 0039: it may also grow while the task stays open. */
  predicate Guard0039(was: Task, now: Task, accepted: int) {
    && KeepsIdentity(was, now)
    && (now.desired != was.desired && now.state.Open? ==>
          && now.desired.Some?
          && !Less(now.desired, was.desired)
          && !Less(Some(was.identity.rankedAssetCount), now.desired))
    && (now.desired != was.desired ==> now.state in {Open, Completed})
    && (now.state.Completed? ==> ShrinksTo(was, now, accepted))
  }

  /** The guard that the downgrade of 0039 installs. */
  predicate Guard0039Downgraded(was: Task, now: Task, accepted: int) {
    && KeepsIdentity(was, now)
    && !(now.desired != was.desired && !now.state.Completed?)
    && (now.state.Completed? ==> ShrinksTo(was, now, accepted))
  }

  /** The CHECK constraints of review_tasks. */
  predicate TaskChecks(t: Task) {
    && t.desired.Some? && 0 < t.desired.value <= t.identity.rankedAssetCount
    && t.lockVersion > 0 && t.identity.releaseVersionNo > 0 && |t.identity.rankingManifest| == 64
    && (match t.state
        case Open => t.completedBy.None? && t.completedAt.None? && t.cancelledBy.None? && t.cancelledAt.None?
        case Completed => t.completedBy.Some? && t.completedAt.Some? && t.cancelledBy.None? && t.cancelledAt.None?
        case Cancelled => t.completedBy.None? && t.completedAt.None? && t.cancelledBy.Some? && t.cancelledAt.Some?)
    && (t.completedAt.Some? ==> t.completedAt.value >= t.identity.createdAt)
    && (t.cancelledAt.Some? ==> t.cancelledAt.value >= t.identity.createdAt)
  }

  /** On rows the table can hold, 0008 accepts exactly the updates of 0018 that keep the target. */
  lemma Guard0018WeakensExactlyByShrinking(was: Task, now: Task, accepted: int)
    requires TaskChecks(was)
    ensures Guard0008(was, now, accepted) <==> Guard0018(was, now, accepted) && now.desired == was.desired
  {
  }

  /** 0018 accepts exactly the updates of 0039 that do not grow an open target; its downgrade is 0018. */
  lemma Guard0039WeakensExactlyByGrowing(was: Task, now: Task, accepted: int)
    ensures Guard0018(was, now, accepted) <==>
            Guard0039(was, now, accepted) && (now.state.Open? ==> now.desired == was.desired)
    ensures Guard0039Downgraded(was, now, accepted) <==> Guard0018(was, now, accepted)
  {
  }

  // -------------------------------------------------------------------- selections and completion

  function SelectionsOf(t: Tables, task: Id): set<Selection> {
    set s | s in t.selections && s.task == task
  }

  /** The keys and CHECKs of release_selections. */
  predicate SelectionChecks(t: Tables, s: Selection) {
    && s.decisionRevision > 0 && s.rank > 0 && s.displayOrder > 0
    && CopyChecks(s.source) && |s.rankingManifest| == 64
    && s.frozenAt >= s.sourceAvailableAt
    && forall o :: o in t.selections ==>
         && o.id != s.id
         && o.decision != s.decision
         && (o.task == s.task ==> o.asset != s.asset && o.displayOrder != s.displayOrder)
  }

  /** The selection copies the columns of an available raw master of the release. */
  predicate CopiesMaster(asset: Asset, release: Id, s: Selection) {
    CopyOf(asset, release, s.source) && asset.kind.RawMaster? && asset.availableAt == Some(s.sourceAvailableAt)
  }

  /** BEFORE INSERT ON release_selections. */
  predicate SelectionGuard(t: Tables, s: Selection) {
    && s.task in t.tasks
    && var task := t.tasks[s.task];
    && task.identity.releaseVersion in t.versions
    && task.state.Open?
    && task.identity.scoringRun == s.run
    && task.identity.releaseVersion == s.version
    && task.identity.rankingManifest == s.rankingManifest
    && (exists d :: d in t.decisions
          && d.id == s.decision && d.task == s.task && d.asset == s.asset && d.revision == s.decisionRevision
          && d.run == s.run && d.verdict.Accept? && NoNewer(t.decisions, d))
    && (s.run, s.asset) in t.rankings && t.rankings[(s.run, s.asset)] == s.rank
    && s.asset in t.assets
    && CopiesMaster(t.assets[s.asset], t.versions[s.version].release, s)
  }

  /** The inner joins of the completion trigger find a row. */
  predicate Joins(t: Tables, s: Selection, d: Decision) {
    d.id == s.decision && (s.run, s.asset) in t.rankings && s.version in t.versions && s.asset in t.assets
  }

  /** What the completion trigger demands of a selection row joined with decision, ranking, version and asset. */
  predicate JoinedRowSound(t: Tables, id: Id, was: Task, now: Task, s: Selection, d: Decision)
    requires Joins(t, s, d)
  {
    && s.run == was.identity.scoringRun
    && s.version == was.identity.releaseVersion
    && s.rankingManifest == was.identity.rankingManifest
    && Some(s.frozenAt) == now.completedAt
    && d.task == id && d.asset == s.asset && d.revision == s.decisionRevision
    && d.verdict.Accept? && NoNewer(t.decisions, d)
    && t.rankings[(s.run, s.asset)] == s.rank
    && CopiesMaster(t.assets[s.asset], t.versions[s.version].release, s)
  }

  /** count(*), min(display_order) and max(display_order) of the selections of the task. */
  predicate Numbered(rows: set<Selection>, desired: Option<int>) {
    && Some(|rows|) == desired
    && (rows != {} ==> (exists s :: s in rows && s.displayOrder == 1) && forall s :: s in rows ==> s.displayOrder >= 1)
    && (rows != {} ==> (exists s :: s in rows && Some(s.displayOrder) == desired)
                       && forall s :: s in rows ==> !Less(desired, Some(s.displayOrder)))
  }

  predicate RowsSound(t: Tables, id: Id, was: Task, now: Task) {
    forall s, d :: s in SelectionsOf(t, id) && d in t.decisions && Joins(t, s, d) ==> JoinedRowSound(t, id, was, now, s, d)
  }

  predicate Covered(rows: set<Selection>, d: Decision) {
    exists s :: s in rows && s.decision == d.id
  }

  predicate OrderedByRank(rows: set<Selection>) {
    forall earlier, later :: earlier in rows && later in rows ==>
      !(earlier.rank < later.rank && earlier.displayOrder > later.displayOrder)
  }

  /** review_tasks_validate_selection_completion. */
  predicate CompletionGuard(t: Tables, id: Id, was: Task, now: Task) {
    && Numbered(SelectionsOf(t, id), now.desired)
    && CurrentIn(t.releases, t.versions, was.identity.releaseVersion, Reviewing)
    && RowsSound(t, id, was, now)
    && (forall d :: d in AcceptedRows(t.decisions, id) ==> Covered(SelectionsOf(t, id), d))
    && OrderedByRank(SelectionsOf(t, id))
  }

  // -------------------------------------------------------------------- statements

  datatype FrozenTable = ReviewDecisions | ReleaseSelections | AssetRankings | ReviewTasks

  datatype Statement =
    | InsertDecision(decision: Decision)
    | InsertSelection(selection: Selection)
    | InsertTask(id: Id, task: Task)
    | UpdateTask(id: Id, task: Task)
    | InsertRanking(run: Id, asset: Id, rank: int)
    | PutAsset(id: Id, row: Asset)
    | PutRelease(id: Id, release: Release)
    /** UPDATE or DELETE on decisions, selections and rankings, DELETE on tasks. */
    | MutateFrozen(table: FrozenTable)

  predicate DecisionAdmitted(t: Tables, d: Decision) {
    && Appendable(t.decisions, d)
    && d.task in t.tasks && t.tasks[d.task].identity.scoringRun == d.run && t.tasks[d.task].state.Open?
    && (d.run, d.asset) in t.rankings
  }

  /** The BEFORE triggers and CHECKs of an UPDATE of one review task. */
  predicate TaskUpdateAdmitted(t: Tables, id: Id, now: Task) {
    && id in t.tasks
    && Guard0039(t.tasks[id], now, |AcceptedRows(t.decisions, id)|)
    && (now.state.Completed? ==> CompletionGuard(t, id, t.tasks[id], now))
    && TaskChecks(now)
  }

  function Approve(t: Tables, now: Task): Option<ReleaseTable> {
    if now.state.Completed?
    then Swap(t.releases, t.versions, now.identity.releaseVersion, Reviewing, Approved)
    else Some(t.releases)
  }

  /** The version exists, and so does its release. */
  predicate InVersions(t: Tables, version: Id) {
    version in t.versions && t.versions[version].release in t.releases
  }

  predicate RankingAdmitted(t: Tables, run: Id, asset: Id, rank: int) {
    && (run, asset) !in t.rankings && rank > 0 && asset in t.assets
    && forall k :: k in t.rankings && k.0 == run ==> t.rankings[k] != rank
  }

  /** None when the statement aborts. */
  function Execute(t: Tables, s: Statement): Option<Tables> {
    match s
    case InsertDecision(d) =>
      if DecisionAdmitted(t, d) then Some(t.(decisions := t.decisions + [d])) else None
    case InsertSelection(s) =>
      if SelectionChecks(t, s) && SelectionGuard(t, s) then Some(t.(selections := t.selections + {s})) else None
    case InsertTask(id, task) =>
      // rows start open: the source's INSERTs do, no trigger checks it
      if id !in t.tasks && task.state.Open? && TaskChecks(task) && InVersions(t, task.identity.releaseVersion)
         && (forall i :: i in t.tasks ==> t.tasks[i].identity.scoringRun != task.identity.scoringRun)
      then Some(t.(tasks := t.tasks[id := task])) else None
    case UpdateTask(id, task) =>
      if TaskUpdateAdmitted(t, id, task) && Approve(t, task).Some?
      then Some(t.(tasks := t.tasks[id := task], releases := Approve(t, task).value)) else None
    case InsertRanking(run, asset, rank) =>
      if RankingAdmitted(t, run, asset, rank) then Some(t.(rankings := t.rankings[(run, asset) := rank])) else None
    case PutAsset(id, row) =>
      if AssetAdmitted(t.assets, id, row) && row.release in t.releases then Some(t.(assets := t.assets[id := row])) else None
    case PutRelease(id, release) => Some(t.(releases := t.releases[id := release]))
    case MutateFrozen(_) => None
  }

  function Step(t: Tables, s: Statement): Tables {
    var next := Execute(t, s);
    if next.Some? then next.value else t
  }

  function Run(t: Tables, statements: seq<Statement>): Tables {
    if statements == [] then t else Step(Run(t, statements[..|statements| - 1]), statements[|statements| - 1])
  }

  // -------------------------------------------------------------------- the invariant

  /** A decision is about a ranked asset of the run of its task. */
  predicate DecisionSound(t: Tables, d: Decision) {
    d.task in t.tasks && t.tasks[d.task].identity.scoringRun == d.run && (d.run, d.asset) in t.rankings
  }

  predicate DecisionOf(d: Decision, s: Selection) {
    && d.id == s.decision && d.task == s.task && d.asset == s.asset && d.revision == s.decisionRevision
    && d.run == s.run && d.verdict.Accept?
  }

  predicate HasDecision(t: Tables, s: Selection) {
    exists d :: d in t.decisions && DecisionOf(d, s)
  }

  /** A selection agrees with the task, decision and ranking it names. */
  predicate SelectionSound(t: Tables, s: Selection) {
    && s.task in t.tasks
    && var identity := t.tasks[s.task].identity;
    && s.run == identity.scoringRun && s.version == identity.releaseVersion
    && s.rankingManifest == identity.rankingManifest
    && s.displayOrder > 0 && CopyChecks(s.source)
    && s.version in t.versions && s.asset in t.assets
    && (s.run, s.asset) in t.rankings && t.rankings[(s.run, s.asset)] == s.rank
    && HasDecision(t, s)
  }

  /** Two selections of a task differ in decision, asset, display order and rank. */
  predicate Apart(s: Selection, o: Selection) {
    s.id != o.id && s.decision != o.decision
    && (s.task == o.task ==> s.asset != o.asset && s.displayOrder != o.displayOrder && s.rank != o.rank)
  }

  predicate PairwiseApart(rows: set<Selection>) {
    forall s, o :: s in rows && o in rows && s != o ==> Apart(s, o)
  }

  /** Two assets of a run have different ranks. */
  ghost predicate RankingsDistinct(rankings: map<(Id, Id), int>) {
    forall run, a, b :: (run, a) in rankings && (run, b) in rankings && a != b ==> rankings[(run, a)] != rankings[(run, b)]
  }

  /** Rankings name assets, and assets name releases. */
  ghost predicate AssetsReferenced(t: Tables) {
    && (forall k :: k in t.rankings ==> k.1 in t.assets)
    && (forall a :: a in t.assets ==> t.assets[a].release in t.releases)
  }

  predicate RankingsPositive(rankings: map<(Id, Id), int>) {
    forall k :: k in rankings ==> rankings[k] > 0
  }

  function SelectedAssets(t: Tables, task: Id): set<Id> {
    set s | s in SelectionsOf(t, task) :: s.asset
  }

  function DisplayOrders(t: Tables, task: Id): set<int> {
    set s | s in SelectionsOf(t, task) :: s.displayOrder
  }

  /** The selections of a task are its accepted assets, displayed 1..n by rank. */
  ghost predicate FrozenSnapshot(t: Tables, id: Id)
    requires id in t.tasks
  {
    && var rows := SelectionsOf(t, id);
    && t.tasks[id].desired == Some(|rows|)
    && SelectedAssets(t, id) == AcceptedAssets(t.decisions, id)
    && |AcceptedAssets(t.decisions, id)| == |rows|
    && DisplayOrders(t, id) == UpTo(|rows|)
    && (forall s, o :: s in rows && o in rows ==> (s.rank < o.rank <==> s.displayOrder < o.displayOrder))
    && (forall s :: s in rows ==> Some(s.frozenAt) == t.tasks[id].completedAt)
    && (forall s, d :: s in rows && d in t.decisions && d.id == s.decision ==> d in AcceptedRows(t.decisions, id))
  }

  ghost predicate Valid(t: Tables) {
    && WellFormed(t.decisions)
    && (forall d :: d in t.decisions ==> DecisionSound(t, d))
    && RankingsDistinct(t.rankings) && RankingsPositive(t.rankings)
    && AssetsSound(t.assets) && AssetsReferenced(t)
    && (forall s :: s in t.selections ==> SelectionSound(t, s))
    && PairwiseApart(t.selections)
    && (forall id :: id in t.tasks ==> TaskChecks(t.tasks[id]) && InVersions(t, t.tasks[id].identity.releaseVersion))
    && (forall id :: id in t.tasks && t.tasks[id].state.Completed? ==> FrozenSnapshot(t, id))
  }

  /** A database without rankings, reviews and what belongs to them is valid. */
  lemma EmptyIsValid(t: Tables)
    requires t.decisions == [] && t.tasks == map[] && t.selections == {} && t.rankings == map[]
    requires AssetsSound(t.assets) && AssetsReferenced(t)
    ensures Valid(t)
  {
  }

  // -------------------------------------------------------------------- every statement keeps it

  /** A decision of another task leaves the accepted rows alone. */
  lemma OtherTaskKeepsAccepted(log: Log, d: Decision, task: Id)
    requires d.task != task
    ensures AcceptedRows(log + [d], task) == AcceptedRows(log, task)
  {
    forall e: Decision | e.task == task
      ensures NoNewer(log + [d], e) <==> NoNewer(log, e)
    {
      assert forall n :: n in log ==> n in log + [d];
    }
  }

  /** A step that does not touch what a snapshot joins keeps it. */
  lemma SnapshotFrame(t: Tables, next: Tables, id: Id)
    requires id in t.tasks && FrozenSnapshot(t, id)
    requires id in next.tasks && next.tasks[id] == t.tasks[id]
    requires SelectionsOf(next, id) == SelectionsOf(t, id)
    requires AcceptedRows(next.decisions, id) == AcceptedRows(t.decisions, id)
    requires forall d :: d in next.decisions && d !in t.decisions ==> d.id !in set s | s in SelectionsOf(t, id) :: s.decision
    ensures FrozenSnapshot(next, id)
  {
    assert AcceptedAssets(next.decisions, id) == AcceptedAssets(t.decisions, id);
    assert SelectedAssets(next, id) == SelectedAssets(t, id);
    assert DisplayOrders(next, id) == DisplayOrders(t, id);
  }

  lemma DecisionKeepsSnapshot(t: Tables, d: Decision, id: Id)
    requires id in t.tasks && FrozenSnapshot(t, id) && d.task != id
    requires forall s :: s in SelectionsOf(t, id) ==> HasDecision(t, s)
    requires forall e :: e in t.decisions ==> e.id != d.id
    ensures FrozenSnapshot(t.(decisions := t.decisions + [d]), id)
  {
    OtherTaskKeepsAccepted(t.decisions, d, id);
    SnapshotFrame(t, t.(decisions := t.decisions + [d]), id);
  }

  lemma DecisionKeepsSelection(t: Tables, d: Decision, s: Selection)
    requires SelectionSound(t, s)
    ensures SelectionSound(t.(decisions := t.decisions + [d]), s)
  {
    var e :| e in t.decisions && DecisionOf(e, s);
    assert e in t.decisions + [d];
  }

  lemma DecisionKeepsValid(t: Tables, d: Decision)
    requires Valid(t) && DecisionAdmitted(t, d)
    ensures Valid(t.(decisions := t.decisions + [d]))
  {
    var next := t.(decisions := t.decisions + [d]);
    assert next.decisions[..|t.decisions|] == t.decisions;
    forall s | s in next.selections
      ensures SelectionSound(next, s)
    {
      DecisionKeepsSelection(t, d, s);
    }
    DecisionKeepsSnapshots(t, d);
  }

  lemma DecisionKeepsSnapshots(t: Tables, d: Decision)
    requires Valid(t) && DecisionAdmitted(t, d)
    ensures var next := t.(decisions := t.decisions + [d]);
            forall id :: id in next.tasks && next.tasks[id].state.Completed? ==> FrozenSnapshot(next, id)
  {
    forall id | id in t.tasks && t.tasks[id].state.Completed?
      ensures FrozenSnapshot(t.(decisions := t.decisions + [d]), id)
    {
      DecisionKeepsSnapshot(t, d, id);
    }
  }

  lemma NewSelectionSound(t: Tables, s: Selection)
    requires SelectionChecks(t, s) && SelectionGuard(t, s)
    ensures SelectionSound(t.(selections := t.selections + {s}), s)
  {
    var d :| d in t.decisions
        && d.id == s.decision && d.task == s.task && d.asset == s.asset && d.revision == s.decisionRevision
        && d.run == s.run && d.verdict.Accept? && NoNewer(t.decisions, d);
    assert DecisionOf(d, s);
  }

  lemma NewSelectionApart(t: Tables, s: Selection, o: Selection)
    requires SelectionChecks(t, s) && SelectionGuard(t, s) && RankingsDistinct(t.rankings)
    requires o in t.selections && SelectionSound(t, o)
    ensures Apart(s, o) && Apart(o, s)
  {
    if o.task == s.task {
      assert o.run == s.run && (s.run, o.asset) in t.rankings && (s.run, s.asset) in t.rankings;
    }
  }

  lemma NewSelectionKeepsOld(t: Tables, s: Selection, o: Selection)
    requires SelectionSound(t, o)
    ensures SelectionSound(t.(selections := t.selections + {s}), o)
  {
    SelectionFrame(t, t.(selections := t.selections + {s}), o);
  }

  lemma NewSelectionKeepsApart(t: Tables, s: Selection)
    requires SelectionChecks(t, s) && SelectionGuard(t, s) && RankingsDistinct(t.rankings) && PairwiseApart(t.selections)
    requires forall o :: o in t.selections ==> SelectionSound(t, o)
    ensures PairwiseApart(t.selections + {s})
  {
    forall o | o in t.selections
      ensures Apart(s, o) && Apart(o, s)
    {
      NewSelectionApart(t, s, o);
    }
  }

  lemma SelectionKeepsValid(t: Tables, s: Selection)
    requires Valid(t) && SelectionChecks(t, s) && SelectionGuard(t, s)
    ensures Valid(t.(selections := t.selections + {s}))
  {
    NewSelectionKeepsApart(t, s);
    SelectionKeepsSelections(t, s);
    SelectionKeepsSnapshots(t, s);
  }

  lemma SelectionKeepsSelections(t: Tables, s: Selection)
    requires SelectionChecks(t, s) && SelectionGuard(t, s) && forall o :: o in t.selections ==> SelectionSound(t, o)
    ensures var next := t.(selections := t.selections + {s}); forall o :: o in next.selections ==> SelectionSound(next, o)
  {
    NewSelectionSound(t, s);
    forall o | o in t.selections
      ensures SelectionSound(t.(selections := t.selections + {s}), o)
    {
      NewSelectionKeepsOld(t, s, o);
    }
  }

  lemma SelectionKeepsSnapshots(t: Tables, s: Selection)
    requires SelectionGuard(t, s) && forall id :: id in t.tasks && t.tasks[id].state.Completed? ==> FrozenSnapshot(t, id)
    ensures var next := t.(selections := t.selections + {s});
            forall id :: id in next.tasks && next.tasks[id].state.Completed? ==> FrozenSnapshot(next, id)
  {
    forall id | id in t.tasks && t.tasks[id].state.Completed?
      ensures FrozenSnapshot(t.(selections := t.selections + {s}), id)
    {
      SelectionElsewhere(t, s, id);
    }
  }

  lemma SelectionElsewhere(t: Tables, s: Selection, id: Id)
    requires id in t.tasks && FrozenSnapshot(t, id) && s.task != id
    ensures FrozenSnapshot(t.(selections := t.selections + {s}), id)
  {
    var next := t.(selections := t.selections + {s});
    assert SelectionsOf(next, id) == SelectionsOf(t, id);
    SnapshotFrame(t, next, id);
  }

  /** Count, minimum, maximum and the unique display order give exactly 1..n. */
  lemma OrdersFillTheRange(rows: set<Selection>, task: Id)
    requires Numbered(rows, Some(|rows|)) && PairwiseApart(rows)
    requires forall s :: s in rows ==> s.task == task
    ensures (set s | s in rows :: s.displayOrder) == UpTo(|rows|)
  {
    assert forall s :: s in rows ==> 1 <= s.displayOrder <= |rows|;
    forall s, o | s in rows && o in rows && s.displayOrder == o.displayOrder
      ensures s == o
    {
      assert s != o ==> Apart(s, o);
    }
    DistinctOrders(rows);
  }

  lemma DistinctOrders(rows: set<Selection>)
    requires forall s :: s in rows ==> 1 <= s.displayOrder <= |rows|
    requires forall s, o :: s in rows && o in rows && s.displayOrder == o.displayOrder ==> s == o
    ensures (set s | s in rows :: s.displayOrder) == UpTo(|rows|)
  {
    var orders := set s | s in rows :: s.displayOrder;
    InjectiveImageSize(rows, orders, (s: Selection) => s.displayOrder);
    CountAndBoundsFillTheRange(orders, |rows|);
  }

  lemma JoinedDecision(t: Tables, id: Id, was: Task, now: Task, s: Selection, d: Decision)
    requires s in SelectionsOf(t, id) && SelectionSound(t, s) && RowsSound(t, id, was, now)
    requires d in t.decisions && d.id == s.decision
    ensures d in AcceptedRows(t.decisions, id) && d.asset == s.asset && Some(s.frozenAt) == now.completedAt
  {
    assert Joins(t, s, d);
    assert JoinedRowSound(t, id, was, now, s, d);
  }

  lemma SelectedIsAccepted(t: Tables, id: Id, was: Task, now: Task, s: Selection)
    requires s in SelectionsOf(t, id) && SelectionSound(t, s) && RowsSound(t, id, was, now)
    ensures s.asset in AcceptedAssets(t.decisions, id) && Some(s.frozenAt) == now.completedAt
  {
    var d :| d in t.decisions && DecisionOf(d, s);
    JoinedDecision(t, id, was, now, s, d);
  }

  lemma AcceptedIsSelected(t: Tables, id: Id, was: Task, now: Task, d: Decision)
    requires forall s :: s in SelectionsOf(t, id) ==> SelectionSound(t, s)
    requires RowsSound(t, id, was, now)
    requires d in AcceptedRows(t.decisions, id) && Covered(SelectionsOf(t, id), d)
    ensures d.asset in SelectedAssets(t, id)
  {
    var s :| s in SelectionsOf(t, id) && s.decision == d.id;
    JoinedDecision(t, id, was, now, s, d);
  }

  /** The join rows and the coverage clause make selections and accepted assets the same. */
  lemma CompletionCovers(t: Tables, id: Id, was: Task, now: Task)
    requires forall s :: s in SelectionsOf(t, id) ==> SelectionSound(t, s)
    requires RowsSound(t, id, was, now)
    requires forall d :: d in AcceptedRows(t.decisions, id) ==> Covered(SelectionsOf(t, id), d)
    ensures SelectedAssets(t, id) == AcceptedAssets(t.decisions, id)
    ensures forall s :: s in SelectionsOf(t, id) ==> Some(s.frozenAt) == now.completedAt
  {
    forall s | s in SelectionsOf(t, id)
      ensures s.asset in AcceptedAssets(t.decisions, id) && Some(s.frozenAt) == now.completedAt
    {
      SelectedIsAccepted(t, id, was, now, s);
    }
    forall d | d in AcceptedRows(t.decisions, id)
      ensures d.asset in SelectedAssets(t, id)
    {
      AcceptedIsSelected(t, id, was, now, d);
    }
  }

  lemma CompletionDecisions(t: Tables, id: Id, was: Task, now: Task)
    requires forall s :: s in SelectionsOf(t, id) ==> SelectionSound(t, s)
    requires RowsSound(t, id, was, now)
    ensures forall s, d :: s in SelectionsOf(t, id) && d in t.decisions && d.id == s.decision ==>
              d in AcceptedRows(t.decisions, id)
  {
    forall s, d | s in SelectionsOf(t, id) && d in t.decisions && d.id == s.decision
      ensures d in AcceptedRows(t.decisions, id)
    {
      JoinedDecision(t, id, was, now, s, d);
    }
  }

  /** Distinct ranks turn the weak order of the trigger into a strict one. */
  lemma OrderIsStrict(rows: set<Selection>, task: Id)
    requires PairwiseApart(rows) && OrderedByRank(rows) && forall s :: s in rows ==> s.task == task
    ensures forall s, o :: s in rows && o in rows ==> (s.rank < o.rank <==> s.displayOrder < o.displayOrder)
  {
    forall s, o | s in rows && o in rows
      ensures s.rank < o.rank <==> s.displayOrder < o.displayOrder
    {
      assert s != o ==> Apart(s, o);
    }
  }

  /** Both target guards count the accepted rows, so there is one selection for each. */
  lemma CompletionCounts(t: Tables, id: Id, now: Task)
    requires WellFormed(t.decisions) && TaskUpdateAdmitted(t, id, now) && now.state.Completed?
    ensures now.desired == Some(|AcceptedAssets(t.decisions, id)|) == Some(|SelectionsOf(t, id)|)
  {
    AcceptedRowsBijectWithAssets(t.decisions, id);
  }

  /** The completion trigger establishes the snapshot. */
  lemma CompletionFreezes(t: Tables, id: Id, now: Task)
    requires WellFormed(t.decisions) && PairwiseApart(t.selections)
    requires forall s :: s in SelectionsOf(t, id) ==> SelectionSound(t, s)
    requires TaskUpdateAdmitted(t, id, now) && now.state.Completed?
    ensures FrozenSnapshot(t.(tasks := t.tasks[id := now]), id)
  {
    var next := t.(tasks := t.tasks[id := now]);
    var rows := SelectionsOf(t, id);
    CompletionCounts(t, id, now);
    GuardParts(t, id, t.tasks[id], now);
    OrdersFillTheRange(rows, id);
    CompletionCovers(t, id, t.tasks[id], now);
    CompletionDecisions(t, id, t.tasks[id], now);
    OrderIsStrict(rows, id);
    SnapshotFrom(t, next, id);
  }

  lemma GuardParts(t: Tables, id: Id, was: Task, now: Task)
    requires CompletionGuard(t, id, was, now) && PairwiseApart(t.selections)
    ensures Numbered(SelectionsOf(t, id), now.desired) && PairwiseApart(SelectionsOf(t, id))
    ensures RowsSound(t, id, was, now) && OrderedByRank(SelectionsOf(t, id))
    ensures forall d :: d in AcceptedRows(t.decisions, id) ==> Covered(SelectionsOf(t, id), d)
  {
  }

  /** The snapshot of a task row that is written over the same selections. */
  lemma SnapshotFrom(t: Tables, next: Tables, id: Id)
    requires id in next.tasks && next.decisions == t.decisions && next.selections == t.selections
    requires next.tasks[id].desired == Some(|SelectionsOf(t, id)|)
    requires SelectedAssets(t, id) == AcceptedAssets(t.decisions, id)
    requires |AcceptedAssets(t.decisions, id)| == |SelectionsOf(t, id)|
    requires (set s | s in SelectionsOf(t, id) :: s.displayOrder) == UpTo(|SelectionsOf(t, id)|)
    requires forall s, o :: s in SelectionsOf(t, id) && o in SelectionsOf(t, id) ==>
               (s.rank < o.rank <==> s.displayOrder < o.displayOrder)
    requires forall s :: s in SelectionsOf(t, id) ==> Some(s.frozenAt) == next.tasks[id].completedAt
    requires forall s, d :: s in SelectionsOf(t, id) && d in t.decisions && d.id == s.decision ==>
               d in AcceptedRows(t.decisions, id)
    ensures FrozenSnapshot(next, id)
  {
    assert SelectionsOf(next, id) == SelectionsOf(t, id);
    assert SelectedAssets(next, id) == SelectedAssets(t, id);
    assert DisplayOrders(next, id) == set s | s in SelectionsOf(t, id) :: s.displayOrder;
  }

  /** The row is an available raw master of the release with these columns. */
  predicate IsMaster(t: Tables, asset: Id, release: Id, source: Storage, since: int) {
    && asset in t.assets
    && var a := t.assets[asset];
    && a.available && a.kind == RawMaster && a.release == release
    && a.storage == Some(source) && a.availableAt == Some(since)
  }

  /** At that moment every selection is a current copy of an available raw master of the approved release. */
  lemma CompletionMatchesAssets(t: Tables, id: Id, now: Task, s: Selection)
    requires Valid(t) && TaskUpdateAdmitted(t, id, now) && now.state.Completed? && s in SelectionsOf(t, id)
    ensures IsMaster(t, s.asset, t.versions[now.identity.releaseVersion].release, s.source, s.sourceAvailableAt)
  {
    assert SelectionSound(t, s);
    var d :| d in t.decisions && DecisionOf(d, s);
    assert Joins(t, s, d);
    assert JoinedRowSound(t, id, t.tasks[id], now, s, d);
  }

  /** An accepted selection copies an available raw master of the release under review. */
  lemma SelectionCopiesMaster(t: Tables, s: Selection)
    requires Execute(t, InsertSelection(s)).Some?
    ensures s.version in t.versions && IsMaster(t, s.asset, t.versions[s.version].release, s.source, s.sourceAvailableAt)
  {
  }

  /** An asset that changed since its selection keeps the completion from changing anything. */
  lemma ChangedAssetAborts(t: Tables, id: Id, now: Task, s: Selection)
    requires Valid(t) && now.state.Completed? && s in SelectionsOf(t, id) && s.version in t.versions
    requires !IsMaster(t, s.asset, t.versions[s.version].release, s.source, s.sourceAvailableAt)
    ensures Execute(t, UpdateTask(id, now)).None? && Step(t, UpdateTask(id, now)) == t
  {
    assert SelectionSound(t, s);
    if TaskUpdateAdmitted(t, id, now) { CompletionMatchesAssets(t, id, now, s); }
  }

  /** A selection keeps agreeing with its rows while they stay as they are. */
  lemma SelectionFrame(t: Tables, next: Tables, s: Selection)
    requires SelectionSound(t, s)
    requires next.decisions == t.decisions && next.versions == t.versions
    requires s.task in next.tasks && next.tasks[s.task].identity == t.tasks[s.task].identity
    requires s.asset in next.assets
    requires (s.run, s.asset) in next.rankings && next.rankings[(s.run, s.asset)] == t.rankings[(s.run, s.asset)]
    ensures SelectionSound(next, s)
  {
    assert HasDecision(t, s);
  }

  lemma SelectionsStay(t: Tables, next: Tables)
    requires forall s :: s in t.selections ==> SelectionSound(t, s)
    requires next.selections == t.selections && next.decisions == t.decisions && next.versions == t.versions
    requires forall id :: id in t.tasks ==> id in next.tasks && next.tasks[id].identity == t.tasks[id].identity
    requires t.assets.Keys <= next.assets.Keys
    requires forall k :: k in t.rankings ==> k in next.rankings && next.rankings[k] == t.rankings[k]
    ensures forall s :: s in next.selections ==> SelectionSound(next, s)
  {
    forall s | s in next.selections
      ensures SelectionSound(next, s)
    {
      SelectionFrame(t, next, s);
    }
  }

  /** Completed tasks keep their snapshots while no task completes and no decision or selection is added. */
  lemma SnapshotsStay(t: Tables, next: Tables)
    requires forall id :: id in t.tasks && t.tasks[id].state.Completed? ==> FrozenSnapshot(t, id)
    requires next.selections == t.selections && next.decisions == t.decisions
    requires forall id :: id in next.tasks && next.tasks[id].state.Completed? ==> id in t.tasks && next.tasks[id] == t.tasks[id]
    ensures forall id :: id in next.tasks && next.tasks[id].state.Completed? ==> FrozenSnapshot(next, id)
  {
    forall id | id in next.tasks && next.tasks[id].state.Completed?
      ensures FrozenSnapshot(next, id)
    {
      SnapshotFrame(t, next, id);
    }
  }

  lemma TaskUpdateKeepsValid(t: Tables, id: Id, now: Task, releases: ReleaseTable)
    requires Valid(t) && TaskUpdateAdmitted(t, id, now) && t.releases.Keys <= releases.Keys
    ensures Valid(t.(tasks := t.tasks[id := now], releases := releases))
  {
    var next := t.(tasks := t.tasks[id := now], releases := releases);
    SelectionsStay(t, next);
    TaskUpdateKeepsSnapshots(t, id, now, releases);
  }

  lemma TaskUpdateKeepsSnapshots(t: Tables, id: Id, now: Task, releases: ReleaseTable)
    requires Valid(t) && TaskUpdateAdmitted(t, id, now)
    ensures var next := t.(tasks := t.tasks[id := now], releases := releases);
            forall other :: other in next.tasks && next.tasks[other].state.Completed? ==> FrozenSnapshot(next, other)
  {
    forall other | other in t.tasks && (if other == id then now.state.Completed? else t.tasks[other].state.Completed?)
      ensures FrozenSnapshot(t.(tasks := t.tasks[id := now], releases := releases), other)
    {
      TaskUpdateKeepsSnapshot(t, id, now, releases, other);
    }
  }

  lemma ReleasesKeepSnapshot(t: Tables, releases: ReleaseTable, id: Id)
    requires id in t.tasks && FrozenSnapshot(t, id)
    ensures FrozenSnapshot(t.(releases := releases), id)
  {
    SnapshotFrame(t, t.(releases := releases), id);
  }

  lemma CompletionFreezesWith(t: Tables, id: Id, now: Task, releases: ReleaseTable)
    requires WellFormed(t.decisions) && PairwiseApart(t.selections)
    requires forall s :: s in SelectionsOf(t, id) ==> SelectionSound(t, s)
    requires TaskUpdateAdmitted(t, id, now) && now.state.Completed?
    ensures FrozenSnapshot(t.(tasks := t.tasks[id := now], releases := releases), id)
  {
    CompletionFreezes(t, id, now);
    ReleasesKeepSnapshot(t.(tasks := t.tasks[id := now]), releases, id);
  }

  lemma TaskUpdateKeepsSnapshot(t: Tables, id: Id, now: Task, releases: ReleaseTable, other: Id)
    requires Valid(t) && TaskUpdateAdmitted(t, id, now) && other in t.tasks
    requires if other == id then now.state.Completed? else t.tasks[other].state.Completed?
    ensures FrozenSnapshot(t.(tasks := t.tasks[id := now], releases := releases), other)
  {
    if other == id {
      CompletionFreezesWith(t, id, now, releases);
    } else {
      SnapshotFrame(t, t.(tasks := t.tasks[id := now], releases := releases), other);
    }
  }

  lemma TaskInsertKeepsValid(t: Tables, id: Id, task: Task)
    requires Valid(t) && id !in t.tasks && task.state.Open? && TaskChecks(task) && InVersions(t, task.identity.releaseVersion)
    ensures Valid(t.(tasks := t.tasks[id := task]))
  {
    var next := t.(tasks := t.tasks[id := task]);
    SelectionsStay(t, next);
    SnapshotsStay(t, next);
  }

  lemma RankingKeepsDistinct(rankings: map<(Id, Id), int>, run: Id, asset: Id, rank: int)
    requires RankingsDistinct(rankings)
    requires (run, asset) !in rankings && forall k :: k in rankings && k.0 == run ==> rankings[k] != rank
    ensures RankingsDistinct(rankings[(run, asset) := rank])
  {
  }

  /** Rankings, assets and releases may grow or move under the selections. */
  lemma NeighboursKeepValid(t: Tables, rankings: map<(Id, Id), int>, assets: AssetTable, releases: ReleaseTable)
    requires Valid(t) && RankingsDistinct(rankings) && RankingsPositive(rankings) && AssetsSound(assets)
    requires forall k :: k in t.rankings ==> k in rankings && rankings[k] == t.rankings[k]
    requires t.assets.Keys <= assets.Keys && t.releases.Keys <= releases.Keys
    requires AssetsReferenced(t.(rankings := rankings, assets := assets, releases := releases))
    ensures Valid(t.(rankings := rankings, assets := assets, releases := releases))
  {
    var next := t.(rankings := rankings, assets := assets, releases := releases);
    SelectionsStay(t, next);
    SnapshotsStay(t, next);
  }

  /** Every statement keeps the database valid. */
  lemma StepKeepsValid(t: Tables, s: Statement)
    requires Valid(t)
    ensures Valid(Step(t, s))
  {
    if Execute(t, s).Some? {
      match s
      case InsertDecision(d) => DecisionKeepsValid(t, d);
      case InsertSelection(row) => SelectionKeepsValid(t, row);
      case UpdateTask(id, task) => TaskUpdateKeepsValid(t, id, task, Approve(t, task).value);
      case InsertTask(id, task) => TaskInsertKeepsValid(t, id, task);
      case InsertRanking(run, asset, rank) =>
        RankingKeepsDistinct(t.rankings, run, asset, rank);
        NeighboursKeepValid(t, t.rankings[(run, asset) := rank], t.assets, t.releases);
      case PutAsset(id, row) =>
        PutKeepsSound(t.assets, id, row);
        NeighboursKeepValid(t, t.rankings, t.assets[id := row], t.releases);
      case PutRelease(id, release) => NeighboursKeepValid(t, t.rankings, t.assets, t.releases[id := release]);
    }
  }

  lemma {:induction false} RunKeepsValid(t: Tables, statements: seq<Statement>)
    requires Valid(t)
    ensures Valid(Run(t, statements))
  {
    if statements != [] {
      RunKeepsValid(t, statements[..|statements| - 1]);
      StepKeepsValid(Run(t, statements[..|statements| - 1]), statements[|statements| - 1]);
    }
  }

  // -------------------------------------------------------------------- results over runs

  /** In every reachable state the selections of a completed task are its accepted assets, shown 1..target by rank. */
  lemma CompletedTaskSnapshot(empty: Tables, statements: seq<Statement>, id: Id)
    requires empty.decisions == [] && empty.tasks == map[] && empty.selections == {} && empty.rankings == map[]
    requires AssetsSound(empty.assets) && AssetsReferenced(empty)
    requires id in Run(empty, statements).tasks && Run(empty, statements).tasks[id].state.Completed?
    ensures FrozenSnapshot(Run(empty, statements), id)
  {
    EmptyIsValid(empty);
    RunKeepsValid(empty, statements);
  }

  lemma StepKeepsCompleted(t: Tables, s: Statement, id: Id)
    requires id in t.tasks && t.tasks[id].state.Completed?
    ensures var next := Step(t, s);
            && id in next.tasks && next.tasks[id] == t.tasks[id]
            && SelectionsOf(next, id) == SelectionsOf(t, id)
            && AcceptedRows(next.decisions, id) == AcceptedRows(t.decisions, id)
  {
    if s.InsertDecision? && Execute(t, s).Some? {
      OtherTaskKeepsAccepted(t.decisions, s.decision, id);
    }
  }

  /** A completed task, its selections and its accepted decisions never change again. */
  lemma {:induction false} CompletedForever(t: Tables, statements: seq<Statement>, id: Id)
    requires id in t.tasks && t.tasks[id].state.Completed?
    ensures var last := Run(t, statements);
            && id in last.tasks && last.tasks[id] == t.tasks[id]
            && SelectionsOf(last, id) == SelectionsOf(t, id)
            && AcceptedRows(last.decisions, id) == AcceptedRows(t.decisions, id)
  {
    if statements != [] {
      var before := statements[..|statements| - 1];
      CompletedForever(t, before, id);
      StepKeepsCompleted(Run(t, before), statements[|statements| - 1], id);
    }
  }

  /** The decision of the selection has been superseded by a newer one. */
  predicate Outdated(t: Tables, s: Selection) {
    s in t.selections && exists d :: d in t.decisions && d.id == s.decision && !NoNewer(t.decisions, d)
  }

  lemma StepKeepsOutdated(t: Tables, statement: Statement, s: Selection)
    requires Outdated(t, s)
    ensures Outdated(Step(t, statement), s)
  {
    var next := Step(t, statement);
    var d :| d in t.decisions && d.id == s.decision && !NoNewer(t.decisions, d);
    var newer :| newer in t.decisions && SameChain(newer, d) && newer.revision > d.revision;
    assert d in next.decisions && newer in next.decisions;
  }

  lemma OutdatedMeansUnfinished(t: Tables, s: Selection)
    requires Valid(t) && Outdated(t, s)
    ensures s.task in t.tasks && !t.tasks[s.task].state.Completed?
  {
    assert SelectionSound(t, s) && s in SelectionsOf(t, s.task);
    var d :| d in t.decisions && d.id == s.decision && !NoNewer(t.decisions, d);
    assert d !in AcceptedRows(t.decisions, s.task);
  }

  /** A selection whose decision was superseded keeps its task from ever completing. */
  lemma {:induction false} OutdatedSelectionBlocks(t: Tables, statements: seq<Statement>, s: Selection)
    requires Valid(t) && Outdated(t, s)
    ensures Outdated(Run(t, statements), s)
    ensures s.task in Run(t, statements).tasks && !Run(t, statements).tasks[s.task].state.Completed?
  {
    if statements != [] {
      var before := statements[..|statements| - 1];
      OutdatedSelectionBlocks(t, before, s);
      StepKeepsOutdated(Run(t, before), statements[|statements| - 1], s);
    }
    RunKeepsValid(t, statements);
    OutdatedMeansUnfinished(Run(t, statements), s);
  }

  lemma StepKeepsSelections(t: Tables, s: Statement)
    ensures t.selections <= Step(t, s).selections
  {
  }

  lemma {:induction false} SelectionsOnlyGrow(t: Tables, statements: seq<Statement>)
    ensures t.selections <= Run(t, statements).selections
  {
    if statements != [] {
      var before := statements[..|statements| - 1];
      SelectionsOnlyGrow(t, before);
      StepKeepsSelections(Run(t, before), statements[|statements| - 1]);
    }
  }

  /** So do two selections frozen at different times. */
  lemma UnevenFreezeBlocks(t: Tables, statements: seq<Statement>, s: Selection, o: Selection)
    requires Valid(t) && s in t.selections && o in t.selections && s.task == o.task && s.frozenAt != o.frozenAt
    ensures s.task in Run(t, statements).tasks && !Run(t, statements).tasks[s.task].state.Completed?
  {
    RunKeepsValid(t, statements);
    SelectionsOnlyGrow(t, statements);
    var last := Run(t, statements);
    assert SelectionSound(last, s) && s in SelectionsOf(last, s.task) && o in SelectionsOf(last, s.task);
  }

  /** What one accepted update may do to the target. */
  ghost predicate TargetMoves(from: Task, t: Tables, id: Id)
    requires from.desired.Some?
  {
    && id in t.tasks
    && var now := t.tasks[id];
    && now.identity == from.identity
    && now.lockVersion >= from.lockVersion
    && now.desired.Some? && 0 < now.desired.value <= from.identity.rankedAssetCount
    && (from.state.Open? && !now.state.Completed? ==> from.desired.value <= now.desired.value)
    && (from.state.Open? && now.state.Completed? ==> now.desired.value == |AcceptedRows(t.decisions, id)|)
    && (!from.state.Open? ==> now == from)
  }

  lemma StepMovesTarget(from: Task, t: Tables, s: Statement, id: Id)
    requires from.desired.Some? && TargetMoves(from, t, id)
    ensures TargetMoves(from, Step(t, s), id)
  {
    var next := Step(t, s);
    if t.tasks[id].state.Completed? {
      StepKeepsCompleted(t, s, id);
    } else if next.tasks[id] != t.tasks[id] {
      assert s.UpdateTask? && s.id == id && TaskUpdateAdmitted(t, id, next.tasks[id]);
      assert next.decisions == t.decisions;
    }
  }

  /**
    The target never decreases while the task stays open or is cancelled, never exceeds the
    ranked assets, and on completion becomes the accepted count; a terminal task is frozen.
  */
  lemma {:induction false} TargetHistory(t: Tables, statements: seq<Statement>, id: Id)
    requires Valid(t) && id in t.tasks
    ensures t.tasks[id].desired.Some? && TargetMoves(t.tasks[id], Run(t, statements), id)
  {
    assert TaskChecks(t.tasks[id]);
    if statements != [] {
      var before := statements[..|statements| - 1];
      TargetHistory(t, before, id);
      StepMovesTarget(t.tasks[id], Run(t, before), statements[|statements| - 1], id);
    }
  }

  /**
    A completion that passes the BEFORE triggers never fails in the AFTER trigger, and
    approves exactly the release of the task.
  */
  lemma CompletionApproves(t: Tables, id: Id, now: Task)
    requires TaskUpdateAdmitted(t, id, now) && now.state.Completed?
    ensures Execute(t, UpdateTask(id, now)).Some?
    ensures var release := t.versions[now.identity.releaseVersion].release;
            Step(t, UpdateTask(id, now)).releases
            == t.releases[release := Release(Approved, t.releases[release].currentVersionNo, t.releases[release].lockVersion + 1)]
  {
    SwapSucceeds(t.releases, t.versions, now.identity.releaseVersion, Reviewing, Approved);
  }

  /** An admitted update always takes effect. */
  lemma UpdateEffect(t: Tables, id: Id, now: Task)
    ensures TaskUpdateAdmitted(t, id, now) ==>
              && Approve(t, now).Some?
              && Step(t, UpdateTask(id, now)) == t.(tasks := t.tasks[id := now], releases := Approve(t, now).value)
    ensures !TaskUpdateAdmitted(t, id, now) ==> Step(t, UpdateTask(id, now)) == t
  {
    if TaskUpdateAdmitted(t, id, now) && now.state.Completed? {
      CompletionApproves(t, id, now);
    }
  }

  // -------------------------------------------------------------------- the database

  class Database {
    var decisions: Log
    var tasks: map<Id, Task>
    var selections: set<Selection>
    var rankings: map<(Id, Id), int>
    var assets: AssetTable
    var releases: ReleaseTable
    var versions: VersionTable

    function Rows(): Tables
      reads this
    {
      Tables(decisions, tasks, selections, rankings, assets, releases, versions)
    }

    constructor (versions: VersionTable)
      ensures Rows() == Tables([], map[], {}, map[], map[], map[], versions)
      ensures Valid(Rows())
    {
      decisions, tasks, selections, rankings := [], map[], {}, map[];
      assets, releases, this.versions := map[], map[], versions;
      new;
      EmptyIsValid(Rows());
    }

    method RecordDecision(d: Decision) returns (ok: bool)
      requires Valid(Rows())
      modifies this`decisions
      ensures Valid(Rows())
      ensures ok <==> DecisionAdmitted(old(Rows()), d)
      ensures decisions == if ok then old(decisions) + [d] else old(decisions)
      ensures Rows() == Step(old(Rows()), InsertDecision(d))
    {
      StepKeepsValid(Rows(), InsertDecision(d));
      ok := DecisionAdmitted(Rows(), d);
      if ok { decisions := decisions + [d]; }
    }

    method Select(s: Selection) returns (ok: bool)
      requires Valid(Rows())
      modifies this`selections
      ensures Valid(Rows())
      ensures ok <==> SelectionChecks(old(Rows()), s) && SelectionGuard(old(Rows()), s)
      ensures selections == if ok then old(selections) + {s} else old(selections)
      ensures Rows() == Step(old(Rows()), InsertSelection(s))
    {
      StepKeepsValid(Rows(), InsertSelection(s));
      ok := SelectionChecks(Rows(), s) && SelectionGuard(Rows(), s);
      if ok { selections := selections + {s}; }
    }

    /** One UPDATE of a review task with its BEFORE and AFTER triggers. */
    method Update(id: Id, now: Task) returns (ok: bool)
      requires Valid(Rows())
      modifies this`tasks, this`releases
      ensures Valid(Rows())
      ensures ok <==> TaskUpdateAdmitted(old(Rows()), id, now)
      ensures Rows() == Step(old(Rows()), UpdateTask(id, now))
    {
      StepKeepsValid(Rows(), UpdateTask(id, now));
      UpdateEffect(Rows(), id, now);
      ok := TaskUpdateAdmitted(Rows(), id, now);
      if ok {
        var swapped := Approve(Rows(), now);
        tasks, releases := tasks[id := now], swapped.value;
      }
    }

    method Other(s: Statement)
      requires Valid(Rows())
      requires s.InsertTask? || s.InsertRanking? || s.PutAsset? || s.PutRelease? || s.MutateFrozen?
      modifies this
      ensures Valid(Rows()) && Rows() == Step(old(Rows()), s)
    {
      StepKeepsValid(Rows(), s);
      var next := Step(Rows(), s);
      tasks, rankings, assets, releases := next.tasks, next.rankings, next.assets, next.releases;
    }

    /** Any sequence of statements. */
    method ExecuteAll(statements: seq<Statement>)
      requires Valid(Rows())
      modifies this
      ensures Valid(Rows()) && Rows() == Run(old(Rows()), statements)
    {
      for n := 0 to |statements|
        invariant Valid(Rows()) && Rows() == Run(old(Rows()), statements[..n])
      {
        assert statements[..n + 1][..n] == statements[..n];
        match statements[n]
        case InsertDecision(d) => var _ := RecordDecision(d);
        case InsertSelection(s) => var _ := Select(s);
        case UpdateTask(id, task) => var _ := Update(id, task);
        case _ => Other(statements[n]);
      }
      assert statements[..|statements|] == statements;
    }
  }
}
