/**
  The backfill of migration 0009: it freezes the selections of tasks completed before the
  triggers existed, and establishes the invariant that the triggers then keep.
*/
module SelectionBackfill {
  import opened Assets
  import opened Basics
  import opened Releases
  import opened Review
  import opened ReviewLog

  // -------------------------------------------------------------------- source validation

  /** The characters that str.strip removes. */
  predicate Space(c: char) {
    var n := c as int;
    9 <= n <= 13 || 28 <= n <= 32 || n in {0x85, 0xA0, 0x1680, 0x2028, 0x2029, 0x202F, 0x205F, 0x3000} || 0x2000 <= n <= 0x200A
  }

  predicate Nonempty(s: string) {
    exists c :: c in s && !Space(c)
  }

  predicate Sha256Hex(s: string) {
    |s| == 64 && forall c :: c in s ==> '0' <= c <= '9' || 'a' <= c <= 'f'
  }

  predicate Complete(s: Storage) {
    && Nonempty(s.backend) && Nonempty(s.bucket) && Nonempty(s.objectKey) && Nonempty(s.objectVersionId)
    && Sha256Hex(s.sha256) && Nonempty(s.contentType) && Nonempty(s.imageFormat)
    && PositiveSizes(s)
  }

  lemma CompleteCopies(s: Storage)
    requires Complete(s)
    ensures CopyChecks(s)
  {
    forall text | Nonempty(text)
      ensures !Blank(text)
    {
      var c :| c in text && !Space(c);
      assert Space(' ');
    }
  }

  /** A row of the query: a decision with its rank and its asset. */
  datatype Row = Row(decision: Decision, rank: int, asset: Asset)

  /** _validate_backfill_source. */
  predicate SourceSound(task: Task, release: Id, row: Row) {
    && row.decision.run == task.identity.scoringRun
    && row.asset.release == release && row.asset.kind.RawMaster? && row.asset.available
    && row.asset.storage.Some? && Complete(row.asset.storage.value)
    && row.asset.availableAt.Some? && task.completedAt.Some?
    && row.asset.availableAt.value <= task.completedAt.value
  }

  // -------------------------------------------------------------------- the query

  /** The decision is the group maximum of its asset and accepted, and joins a ranking and an asset. */
  predicate Selectable(t: Tables, id: Id, d: Decision)
    requires id in t.tasks
  {
    && d in t.decisions && d.task == id && d.revision == MaxRevision(t.decisions, id, d.asset) && d.verdict.Accept?
    && (t.tasks[id].identity.scoringRun, d.asset) in t.rankings && d.asset in t.assets
  }

  predicate RowFor(t: Tables, id: Id, row: Row)
    requires id in t.tasks
  {
    && Selectable(t, id, row.decision)
    && row.rank == t.rankings[(t.tasks[id].identity.scoringRun, row.decision.asset)]
    && row.asset == t.assets[row.decision.asset]
  }

  ghost predicate HasRow(rows: seq<Row>, d: Decision) {
    exists i :: 0 <= i < |rows| && rows[i].decision == d
  }

  /** The rows of the query, ORDER BY rank, asset_id. */
  ghost predicate QueryOf(rows: seq<Row>, t: Tables, id: Id)
    requires id in t.tasks
  {
    && (forall i :: 0 <= i < |rows| ==> RowFor(t, id, rows[i]))
    && (forall d {:trigger HasRow(rows, d)} :: Selectable(t, id, d) ==> HasRow(rows, d))
    && (forall i, j :: 0 <= i < j < |rows| ==>
          rows[i].rank < rows[j].rank || (rows[i].rank == rows[j].rank && rows[i].decision.asset < rows[j].decision.asset))
  }

  // -------------------------------------------------------------------- one task

  /** What the foreign keys and checks of migrations 0006 and 0008 guarantee beforehand. */
  ghost predicate Keyed(t: Tables) {
    && WellFormed(t.decisions) && RankingsDistinct(t.rankings) && RankingsPositive(t.rankings)
    && AssetsSound(t.assets) && AssetsReferenced(t)
    && (forall d :: d in t.decisions ==>
          && d.task in t.tasks && d.run == t.tasks[d.task].identity.scoringRun
          && (d.run, d.asset) in t.rankings && d.asset in t.assets)
    && (forall id :: id in t.tasks ==> TaskChecks(t.tasks[id]) && InVersions(t, t.tasks[id].identity.releaseVersion))
  }

  /** The values inserted for a row; `name` stands for the name-based UUID of task and decision. */
  function SelectionFor(name: (Id, Id) -> Id, task: Task, id: Id, row: Row, displayOrder: int): Selection
    requires row.asset.storage.Some? && row.asset.availableAt.Some? && task.completedAt.Some?
  {
    Selection(name(id, row.decision.id), id, task.identity.scoringRun, row.decision.id, row.decision.revision,
              task.identity.releaseVersion, row.decision.asset, row.rank, displayOrder, task.identity.rankingManifest,
              row.asset.storage.value, row.asset.availableAt.value, task.completedAt.value)
  }

  /** The values are the rows, enumerated from 1. */
  ghost predicate Enumerates(values: seq<Selection>, name: (Id, Id) -> Id, task: Task, id: Id, rows: seq<Row>) {
    && |values| == |rows|
    && forall i :: 0 <= i < |rows| ==>
         && rows[i].asset.storage.Some? && rows[i].asset.availableAt.Some? && task.completedAt.Some?
         && values[i] == SelectionFor(name, task, id, rows[i], i + 1)
  }

  /** The body of the loop over tasks: None where it raises. */
  method FreezeTask(name: (Id, Id) -> Id, task: Task, id: Id, release: Id, rows: seq<Row>) returns (values: Option<seq<Selection>>)
    ensures values.Some? <==> Some(|rows|) == task.desired && forall i :: 0 <= i < |rows| ==> SourceSound(task, release, rows[i])
    ensures values.Some? ==> Enumerates(values.value, name, task, id, rows)
  {
    if Some(|rows|) != task.desired { return None; }
    var built: seq<Selection> := [];
    for n := 0 to |rows|
      invariant forall i :: 0 <= i < n ==> SourceSound(task, release, rows[i])
      invariant Enumerates(built, name, task, id, rows[..n])
    {
      if !SourceSound(task, release, rows[n]) { return None; }
      built := built + [SelectionFor(name, task, id, rows[n], n + 1)];
    }
    assert rows[..|rows|] == rows;
    values := Some(built);
  }

  /** The decisions of the query are the accepted rows of the task. */
  lemma RowsAreAccepted(t: Tables, id: Id, rows: seq<Row>, d: Decision)
    requires Keyed(t) && id in t.tasks && QueryOf(rows, t, id)
    ensures d in AcceptedRows(t.decisions, id) <==> HasRow(rows, d)
  {
    if d in t.decisions {
      NoNewerIsGroupMax(t.decisions, d);
    }
    if d in AcceptedRows(t.decisions, id) {
      assert Selectable(t, id, d);
    }
    if HasRow(rows, d) {
      var i :| 0 <= i < |rows| && rows[i].decision == d;
      assert RowFor(t, id, rows[i]);
    }
  }

  lemma RanksIncrease(t: Tables, id: Id, rows: seq<Row>, i: nat, j: nat)
    requires Keyed(t) && id in t.tasks && QueryOf(rows, t, id) && i < j < |rows|
    ensures rows[i].rank < rows[j].rank && rows[i].decision.asset != rows[j].decision.asset
  {
    assert RowFor(t, id, rows[i]) && RowFor(t, id, rows[j]);
  }

  ghost predicate SelectionsAre(t: Tables, id: Id, values: seq<Selection>) {
    SelectionsOf(t, id) == Elements(values)
  }

  /** Where a value of the task comes from. */
  lemma ValueAt(values: seq<Selection>, s: Selection) returns (i: nat)
    requires s in Elements(values)
    ensures i < |values| && values[i] == s
  {
    i :| 0 <= i < |values| && values[i] == s;
  }

  lemma ValuesAlike(name: (Id, Id) -> Id, t: Tables, id: Id, rows: seq<Row>, values: seq<Selection>, s: Selection, o: Selection)
    requires Keyed(t) && id in t.tasks && QueryOf(rows, t, id) && Enumerates(values, name, t.tasks[id], id, rows)
    requires s in Elements(values) && o in Elements(values)
    ensures s.displayOrder == o.displayOrder || s.asset == o.asset ==> s == o
    ensures s.rank < o.rank <==> s.displayOrder < o.displayOrder
  {
    var i := ValueAt(values, s);
    var j := ValueAt(values, o);
    if i < j { RanksIncrease(t, id, rows, i, j); }
    if j < i { RanksIncrease(t, id, rows, j, i); }
  }

  /** Different rows give different selections with different assets, shown as 1..n. */
  lemma ValuesCount(name: (Id, Id) -> Id, t: Tables, id: Id, rows: seq<Row>, values: seq<Selection>)
    requires Keyed(t) && id in t.tasks && QueryOf(rows, t, id) && Enumerates(values, name, t.tasks[id], id, rows)
    ensures |Elements(values)| == |rows|
    ensures |set s | s in Elements(values) :: s.asset| == |rows|
    ensures (set s | s in Elements(values) :: s.displayOrder) == UpTo(|rows|)
  {
    forall s, o | s in Elements(values) && o in Elements(values) && s.asset == o.asset
      ensures s == o
    {
      ValuesAlike(name, t, id, rows, values, s, o);
    }
    InjectiveImageSize(Elements(values), set s | s in Elements(values) :: s.asset, (s: Selection) => s.asset);
    ElementsCount(values);
    OrdersCount(values);
  }

  lemma OrdersCount(values: seq<Selection>)
    requires forall i :: 0 <= i < |values| ==> values[i].displayOrder == i + 1
    ensures (set s | s in Elements(values) :: s.displayOrder) == UpTo(|values|)
  {
    forall n | n in UpTo(|values|)
      ensures n in set s | s in Elements(values) :: s.displayOrder
    {
      assert values[n - 1] in Elements(values) && values[n - 1].displayOrder == n;
    }
  }

  lemma OrdersAre(name: (Id, Id) -> Id, before: Tables, t: Tables, id: Id, rows: seq<Row>, values: seq<Selection>)
    requires Keyed(before) && id in before.tasks && QueryOf(rows, before, id)
    requires Enumerates(values, name, before.tasks[id], id, rows) && SelectionsAre(t, id, values)
    ensures DisplayOrders(t, id) == UpTo(|rows|) && |SelectionsOf(t, id)| == |rows| == |SelectedAssets(t, id)|
  {
    ValuesCount(name, before, id, rows, values);
    assert DisplayOrders(t, id) == set s | s in Elements(values) :: s.displayOrder;
    assert SelectedAssets(t, id) == set s | s in Elements(values) :: s.asset;
  }

  /** A decision named by a value is one of the accepted rows. */
  lemma ValueDecision(name: (Id, Id) -> Id, t: Tables, id: Id, rows: seq<Row>, values: seq<Selection>, s: Selection, d: Decision)
    requires Keyed(t) && id in t.tasks && QueryOf(rows, t, id) && Enumerates(values, name, t.tasks[id], id, rows)
    requires s in Elements(values) && d in t.decisions && d.id == s.decision
    ensures d in AcceptedRows(t.decisions, id)
  {
    var i := ValueAt(values, s);
    assert RowFor(t, id, rows[i]);
    KeysIdentifyRows(t.decisions, d, rows[i].decision);
    assert HasRow(rows, d);
    RowsAreAccepted(t, id, rows, d);
  }

  /** The enumerated values, as the selections of the completed task, are its frozen snapshot. */
  lemma ValuesAreSnapshot(name: (Id, Id) -> Id, before: Tables, t: Tables, id: Id, rows: seq<Row>, values: seq<Selection>)
    requires Keyed(before) && id in before.tasks && QueryOf(rows, before, id) && before.tasks[id].desired == Some(|rows|)
    requires t == before.(selections := t.selections, releases := t.releases) && SelectionsAre(t, id, values)
    requires Enumerates(values, name, before.tasks[id], id, rows)
    ensures FrozenSnapshot(t, id)
  {
    ValuesCoverAccepted(name, before, t, id, rows, values);
    AcceptedRowsBijectWithAssets(t.decisions, id);
    forall s, o | s in SelectionsOf(t, id) && o in SelectionsOf(t, id)
      ensures s.rank < o.rank <==> s.displayOrder < o.displayOrder
    {
      ValuesAlike(name, before, id, rows, values, s, o);
    }
    forall s, d | s in SelectionsOf(t, id) && d in t.decisions && d.id == s.decision
      ensures d in AcceptedRows(t.decisions, id)
    {
      ValueDecision(name, before, id, rows, values, s, d);
    }
    forall s | s in SelectionsOf(t, id)
      ensures Some(s.frozenAt) == t.tasks[id].completedAt
    {
      var i := ValueAt(values, s);
    }
    OrdersAre(name, before, t, id, rows, values);
  }

  lemma ValuesCoverAccepted(name: (Id, Id) -> Id, before: Tables, t: Tables, id: Id, rows: seq<Row>, values: seq<Selection>)
    requires Keyed(before) && id in before.tasks && QueryOf(rows, before, id)
    requires t.decisions == before.decisions && SelectionsAre(t, id, values)
    requires Enumerates(values, name, before.tasks[id], id, rows)
    ensures SelectedAssets(t, id) == AcceptedAssets(t.decisions, id)
  {
    forall s | s in SelectionsOf(t, id)
      ensures s.asset in AcceptedAssets(t.decisions, id)
    {
      var i :| 0 <= i < |values| && values[i] == s;
      assert HasRow(rows, rows[i].decision);
      RowsAreAccepted(before, id, rows, rows[i].decision);
    }
    forall d | d in AcceptedRows(t.decisions, id)
      ensures d.asset in SelectedAssets(t, id)
    {
      RowsAreAccepted(before, id, rows, d);
      var i :| 0 <= i < |rows| && rows[i].decision == d;
      assert values[i] in Elements(values);
    }
  }

  // -------------------------------------------------------------------- all tasks

  /** Name-based UUIDs of different names differ. */
  ghost predicate Injective(name: (Id, Id) -> Id) {
    forall a, b, c, d {:trigger name(a, b), name(c, d)} :: name(a, b) == name(c, d) ==> a == c && b == d
  }

  /** The values carry their name and agree with the rows they name. */
  ghost predicate ValueSound(name: (Id, Id) -> Id, t: Tables, s: Selection) {
    s.id == name(s.task, s.decision) && SelectionSound(t, s) && CopiesSource(t, s)
  }

  /** The selection copies an asset that was an available raw master of the release before the review completed. */
  predicate CopiesSource(t: Tables, s: Selection) {
    && s.version in t.versions && s.sourceAvailableAt <= s.frozenAt
    && IsMaster(t, s.asset, t.versions[s.version].release, s.source, s.sourceAvailableAt)
  }

  /** The loop does not raise on any row of the task. */
  predicate SourcesSound(t: Tables, id: Id, rows: seq<Row>)
    requires id in t.tasks && t.tasks[id].identity.releaseVersion in t.versions
  {
    forall i :: 0 <= i < |rows| ==> SourceSound(t.tasks[id], t.versions[t.tasks[id].identity.releaseVersion].release, rows[i])
  }

  lemma NewValueSound(name: (Id, Id) -> Id, t: Tables, id: Id, rows: seq<Row>, values: seq<Selection>, s: Selection)
    requires Keyed(t) && id in t.tasks && QueryOf(rows, t, id) && Enumerates(values, name, t.tasks[id], id, rows)
    requires SourcesSound(t, id, rows)
    requires s in Elements(values)
    ensures s.task == id && ValueSound(name, t, s)
  {
    var i := ValueAt(values, s);
    var d := rows[i].decision;
    assert RowFor(t, id, rows[i]);
    RowPasses(t.decisions, d);
    assert DecisionOf(d, s);
    CompleteCopies(s.source);
  }

  lemma ValuesApart(name: (Id, Id) -> Id, t: Tables, s: Selection, o: Selection)
    requires Injective(name) && Keyed(t) && ValueSound(name, t, s) && ValueSound(name, t, o)
    requires s != o && (s.task == o.task ==> s.displayOrder != o.displayOrder && s.asset != o.asset)
    ensures Apart(s, o)
  {
    var d :| d in t.decisions && DecisionOf(d, s);
    var e :| e in t.decisions && DecisionOf(e, o);
    if s.decision == o.decision { KeysIdentifyRows(t.decisions, d, e); }
    if s.task == o.task {
      assert (s.run, s.asset) in t.rankings && (s.run, o.asset) in t.rankings;
    }
  }

  lemma NewValuesApart(name: (Id, Id) -> Id, t: Tables, id: Id, rows: seq<Row>, values: seq<Selection>)
    requires Injective(name) && Keyed(t) && id in t.tasks && QueryOf(rows, t, id)
    requires Enumerates(values, name, t.tasks[id], id, rows) && SourcesSound(t, id, rows)
    ensures PairwiseApart(Elements(values))
  {
    forall s, o | s in Elements(values) && o in Elements(values) && s != o
      ensures Apart(s, o)
    {
      NewValueSound(name, t, id, rows, values, s);
      NewValueSound(name, t, id, rows, values, o);
      ValuesAlike(name, t, id, rows, values, s, o);
      ValuesApart(name, t, s, o);
    }
  }

  /** The selections frozen so far. */
  ghost predicate FrozenSoFar(name: (Id, Id) -> Id, t: Tables, next: Tables, done: set<Id>) {
    && next == t.(selections := next.selections, releases := next.releases) && t.releases.Keys <= next.releases.Keys
    && (forall s :: s in next.selections ==> s.task in done && ValueSound(name, t, s))
    && PairwiseApart(next.selections)
    && done <= t.tasks.Keys
    && (forall id :: id in done ==> FrozenSnapshot(next, id))
  }

  lemma UnionApart(name: (Id, Id) -> Id, t: Tables, was: set<Selection>, added: set<Selection>, id: Id)
    requires Injective(name) && Keyed(t) && PairwiseApart(was) && PairwiseApart(added)
    requires forall s :: s in was ==> s.task != id && ValueSound(name, t, s)
    requires forall s :: s in added ==> s.task == id && ValueSound(name, t, s)
    ensures PairwiseApart(was + added)
  {
    forall s, o | s in was && o in added
      ensures Apart(s, o) && Apart(o, s)
    {
      ValuesApart(name, t, s, o);
      ValuesApart(name, t, o, s);
    }
  }

  lemma OtherSnapshotsStay(now: Tables, added: set<Selection>, releases: ReleaseTable, id: Id, other: Id)
    requires other in now.tasks && FrozenSnapshot(now, other) && other != id && forall s :: s in added ==> s.task == id
    ensures FrozenSnapshot(now.(selections := now.selections + added, releases := releases), other)
  {
    var next := now.(selections := now.selections + added, releases := releases);
    assert SelectionsOf(next, other) == SelectionsOf(now, other);
    SnapshotFrame(now, next, other);
  }

  /** The new values are sound and apart from each other and from those of earlier tasks. */
  lemma AddedValues(name: (Id, Id) -> Id, t: Tables, was: set<Selection>, id: Id, rows: seq<Row>, values: seq<Selection>)
    requires Injective(name) && Keyed(t) && PairwiseApart(was)
    requires forall s :: s in was ==> s.task != id && ValueSound(name, t, s)
    requires id in t.tasks && QueryOf(rows, t, id) && Enumerates(values, name, t.tasks[id], id, rows)
    requires SourcesSound(t, id, rows)
    ensures forall s :: s in Elements(values) ==> s.task == id && ValueSound(name, t, s)
    ensures PairwiseApart(was + Elements(values))
  {
    forall s | s in Elements(values)
      ensures s.task == id && ValueSound(name, t, s)
    {
      NewValueSound(name, t, id, rows, values, s);
    }
    NewValuesApart(name, t, id, rows, values);
    UnionApart(name, t, was, Elements(values), id);
  }

  /** The task has its snapshot and earlier tasks keep theirs. */
  lemma AddedSnapshots(name: (Id, Id) -> Id, t: Tables, now: Tables, done: set<Id>, id: Id, rows: seq<Row>,
                       values: seq<Selection>, releases: ReleaseTable)
    requires Keyed(t) && now == t.(selections := now.selections, releases := now.releases)
    requires id in t.tasks && id !in done && QueryOf(rows, t, id) && t.tasks[id].desired == Some(|rows|)
    requires Enumerates(values, name, t.tasks[id], id, rows)
    requires forall s :: s in now.selections ==> s.task != id
    requires forall s :: s in Elements(values) ==> s.task == id
    requires done <= t.tasks.Keys && forall other :: other in done ==> FrozenSnapshot(now, other)
    ensures var next := now.(selections := now.selections + Elements(values), releases := releases);
            forall other :: other in done + {id} ==> FrozenSnapshot(next, other)
  {
    var next := now.(selections := now.selections + Elements(values), releases := releases);
    assert SelectionsOf(next, id) == Elements(values);
    ValuesAreSnapshot(name, t, next, id, rows, values);
    forall other | other in done
      ensures FrozenSnapshot(next, other)
    {
      OtherSnapshotsStay(now, Elements(values), releases, id, other);
    }
  }

  lemma OneMoreTask(name: (Id, Id) -> Id, t: Tables, now: Tables, done: set<Id>, id: Id, rows: seq<Row>,
                    values: seq<Selection>, releases: ReleaseTable)
    requires Injective(name) && Keyed(t) && FrozenSoFar(name, t, now, done)
    requires id in t.tasks && id !in done && QueryOf(rows, t, id) && t.tasks[id].desired == Some(|rows|)
    requires Enumerates(values, name, t.tasks[id], id, rows) && SourcesSound(t, id, rows)
    requires now.releases.Keys <= releases.Keys
    ensures FrozenSoFar(name, t, now.(selections := now.selections + Elements(values), releases := releases), done + {id})
  {
    AddedValues(name, t, now.selections, id, rows, values);
    AddedSnapshots(name, t, now, done, id, rows, values, releases);
  }

  /** Once every completed task is frozen, the invariant of the triggers holds. */
  lemma FrozenIsValid(name: (Id, Id) -> Id, t: Tables, next: Tables, done: set<Id>)
    requires Keyed(t) && FrozenSoFar(name, t, next, done)
    requires forall id :: id in t.tasks && t.tasks[id].state.Completed? ==> id in done
    ensures Valid(next)
  {
    forall s | s in next.selections
      ensures SelectionSound(next, s)
    {
      assert ValueSound(name, t, s);
      SelectionFrame(t, next, s);
    }
  }

  /** The update of a release whose current version has a completed task. */
  function ApproveIfReviewing(releases: ReleaseTable, versions: VersionTable, version: Id): ReleaseTable {
    if CurrentIn(releases, versions, version, Reviewing) then
      var id := versions[version].release;
      releases[id := Release(Approved, releases[id].currentVersionNo, releases[id].lockVersion + 1)]
    else releases
  }

  /** The task can be frozen: the loop does not raise on it. */
  predicate Freezable(t: Tables, id: Id, rows: seq<Row>)
    requires id in t.tasks && t.tasks[id].identity.releaseVersion in t.versions
  {
    && t.tasks[id].completedAt.Some?
    && t.tasks[id].desired == Some(|rows|)
    && SourcesSound(t, id, rows)
  }

  /** The completed tasks, each once, with the rows of its query. */
  ghost predicate CompletedTasks(t: Tables, completed: seq<Id>, query: map<Id, seq<Row>>) {
    && (forall i, j :: 0 <= i < j < |completed| ==> completed[i] != completed[j])
    && (forall id :: id in completed <==> id in t.tasks && t.tasks[id].state.Completed?)
    && (forall id :: id in completed ==> id in query && QueryOf(query[id], t, id))
  }

  /** The release is in review with the version of the task. */
  predicate Awaits(t: Tables, id: Id, release: Id) {
    && id in t.tasks && t.tasks[id].identity.releaseVersion in t.versions && release in t.releases
    && var version, row := t.versions[t.tasks[id].identity.releaseVersion], t.releases[release];
    version.release == release && version.no == row.currentVersionNo && row.phase == Reviewing
  }

  /** A release that waited for one of these tasks is approved, with one more lock version; the others are as they were. */
  ghost predicate Approves(t: Tables, releases: ReleaseTable, done: set<Id>) {
    && releases.Keys == t.releases.Keys
    && forall r :: r in t.releases ==>
         releases[r] == if exists id :: id in done && Awaits(t, id, r)
                        then Release(Approved, t.releases[r].currentVersionNo, t.releases[r].lockVersion + 1)
                        else t.releases[r]
  }

  lemma ApprovesOneMore(t: Tables, now: ReleaseTable, done: set<Id>, id: Id)
    requires Approves(t, now, done) && id in t.tasks && InVersions(t, t.tasks[id].identity.releaseVersion)
    ensures Approves(t, ApproveIfReviewing(now, t.versions, t.tasks[id].identity.releaseVersion), done + {id})
  {
    var version := t.tasks[id].identity.releaseVersion;
    var next := ApproveIfReviewing(now, t.versions, version);
    forall r | r in t.releases
      ensures next[r] == if exists other :: other in done + {id} && Awaits(t, other, r)
                         then Release(Approved, t.releases[r].currentVersionNo, t.releases[r].lockVersion + 1)
                         else t.releases[r]
    {
      var waited := exists other :: other in done && Awaits(t, other, r);
      assert (exists other :: other in done + {id} && Awaits(t, other, r)) <==> waited || Awaits(t, id, r);
      assert CurrentIn(now, t.versions, version, Reviewing) && t.versions[version].release == r <==>
             !waited && Awaits(t, id, r);
    }
  }

  /** The release of the task is not in review with its version. */
  predicate LeftReview(t: Tables, task: Task) {
    !CurrentIn(t.releases, t.versions, task.identity.releaseVersion, Reviewing)
  }

  lemma ApprovalKeepsLeft(now: Tables, next: Tables, version: Id, task: Task)
    requires next.versions == now.versions && next.releases == ApproveIfReviewing(now.releases, now.versions, version)
    requires LeftReview(now, task)
    ensures LeftReview(next, task)
  {
  }

  // -------------------------------------------------------------------- which tasks can be frozen

  const HEX := "0123456789abcdef"

  const WHITESPACE := "\t\n\U{0B}\U{0C}\r\U{1C}\U{1D}\U{1E}\U{1F} \U{85}\U{A0}\U{1680}\U{2000}\U{2001}\U{2002}\U{2003}\U{2004}\U{2005}\U{2006}\U{2007}\U{2008}\U{2009}\U{200A}\U{2028}\U{2029}\U{202F}\U{205F}\U{3000}"

  /** Where the character stands in that list. */
  function IndexOf(n: int): int {
    if n <= 13 then n - 9 else if n <= 32 then n - 23 else if n == 0x85 then 10 else if n == 0xA0 then 11
    else if n == 0x1680 then 12 else if n <= 0x200A then n - 0x2000 + 13 else if n <= 0x2029 then n - 0x2028 + 24
    else if n == 0x202F then 26 else if n == 0x205F then 27 else 28
  }

  lemma ListedAreSpaces()
    ensures |WHITESPACE| == 29 && forall k :: 0 <= k < 29 ==> Space(WHITESPACE[k]) && IndexOf(WHITESPACE[k] as int) == k
  {
    forall k | 0 <= k < 29
      ensures Space(WHITESPACE[k]) && IndexOf(WHITESPACE[k] as int) == k
    {
      if k < 10 { } else if k < 13 { } else if k < 24 { } else { }
    }
  }

  lemma SpacesAreListed(c: char)
    ensures Space(c) <==> c in WHITESPACE
  {
    ListedAreSpaces();
    if Space(c) { SpaceHasIndex(c); }
  }

  lemma SpaceHasIndex(c: char)
    requires Space(c)
    ensures c in WHITESPACE
  {
    var k := IndexOf(c as int);
    if k < 10 { assert WHITESPACE[k] == c; } else if k < 13 { assert WHITESPACE[k] == c; }
    else if k < 24 { assert WHITESPACE[k] == c; } else { assert WHITESPACE[k] == c; }
  }

  /** str.strip leaves something. */
  predicate Printed(text: string) {
    exists i :: 0 <= i < |text| && text[i] !in WHITESPACE
  }

  predicate HexDigest(text: string) {
    |text| == 64 && forall i :: 0 <= i < 64 ==> text[i] in HEX
  }

  /** The columns that _validate_backfill_source tests. */
  predicate SourceColumns(a: Asset, release: Id, completedAt: int) {
    && a.release == release && a.kind == RawMaster && a.available && a.availableAt.Some? && a.availableAt.value <= completedAt
    && a.storage.Some?
    && var c := a.storage.value;
    && Printed(c.backend) && Printed(c.bucket) && Printed(c.objectKey) && Printed(c.objectVersionId)
    && HexDigest(c.sha256) && Printed(c.contentType) && Printed(c.imageFormat)
    && c.width > 0 && c.height > 0 && c.byteSize > 0
  }

  /** The target is the number of accepted decisions, and each of them is about such an asset. */
  predicate TaskFreezable(t: Tables, id: Id)
    requires id in t.tasks && t.tasks[id].identity.releaseVersion in t.versions
  {
    && t.tasks[id].completedAt.Some?
    && t.tasks[id].desired == Some(|AcceptedRows(t.decisions, id)|)
    && forall d :: d in AcceptedRows(t.decisions, id) ==>
         && d.asset in t.assets
         && SourceColumns(t.assets[d.asset], t.versions[t.tasks[id].identity.releaseVersion].release, t.tasks[id].completedAt.value)
  }

  lemma HexDigits(c: char)
    ensures c in HEX <==> '0' <= c <= '9' || 'a' <= c <= 'f'
  {
    if '0' <= c <= '9' { assert HEX[c as int - '0' as int] == c; }
    if 'a' <= c <= 'f' { assert HEX[c as int - 'a' as int + 10] == c; }
  }

  lemma TextsAlike(text: string)
    ensures Nonempty(text) <==> Printed(text)
  {
    forall c: char
      ensures Space(c) <==> c in WHITESPACE
    {
      SpacesAreListed(c);
    }
    if c :| c in text && !Space(c) {
      var i :| 0 <= i < |text| && text[i] == c;
    }
  }

  lemma DigestsAlike(text: string)
    ensures Sha256Hex(text) <==> HexDigest(text)
  {
    forall c: char
      ensures c in HEX <==> '0' <= c <= '9' || 'a' <= c <= 'f'
    {
      HexDigits(c);
    }
    assert forall i :: 0 <= i < |text| ==> text[i] in text;
  }

  lemma SourceSoundIsColumns(t: Tables, id: Id, release: Id, row: Row)
    requires Keyed(t) && id in t.tasks && RowFor(t, id, row) && t.tasks[id].completedAt.Some?
    ensures SourceSound(t.tasks[id], release, row) <==> SourceColumns(row.asset, release, t.tasks[id].completedAt.value)
  {
    if row.asset.storage.Some? {
      var c := row.asset.storage.value;
      TextsAlike(c.backend);
      TextsAlike(c.bucket);
      TextsAlike(c.objectKey);
      TextsAlike(c.objectVersionId);
      DigestsAlike(c.sha256);
      TextsAlike(c.contentType);
      TextsAlike(c.imageFormat);
    }
  }

  /** The query has one row for each accepted decision. */
  lemma RowsCountAccepted(t: Tables, id: Id, rows: seq<Row>)
    requires Keyed(t) && id in t.tasks && QueryOf(rows, t, id)
    ensures |rows| == |AcceptedRows(t.decisions, id)|
  {
    var decisions := seq(|rows|, i requires 0 <= i < |rows| => rows[i].decision);
    forall i, j | 0 <= i < j < |rows|
      ensures decisions[i] != decisions[j]
    {
      RanksIncrease(t, id, rows, i, j);
    }
    forall d
      ensures d in Elements(decisions) <==> d in AcceptedRows(t.decisions, id)
    {
      RowsAreAccepted(t, id, rows, d);
      if i :| 0 <= i < |rows| && rows[i].decision == d { assert decisions[i] == d; }
    }
    assert Elements(decisions) == AcceptedRows(t.decisions, id);
    ElementsCount(decisions);
  }

  /** The loop raises on a task exactly when its decisions and assets are not such. */
  lemma FreezableExactly(t: Tables, id: Id, rows: seq<Row>)
    requires Keyed(t) && id in t.tasks && QueryOf(rows, t, id)
    ensures Freezable(t, id, rows) <==> TaskFreezable(t, id)
  {
    RowsCountAccepted(t, id, rows);
    var release := t.versions[t.tasks[id].identity.releaseVersion].release;
    if t.tasks[id].completedAt.Some? {
      forall i | 0 <= i < |rows|
        ensures SourceSound(t.tasks[id], release, rows[i]) <==> SourceColumns(rows[i].asset, release, t.tasks[id].completedAt.value)
        ensures rows[i].decision in AcceptedRows(t.decisions, id) && rows[i].asset == t.assets[rows[i].decision.asset]
      {
        assert RowFor(t, id, rows[i]) && HasRow(rows, rows[i].decision);
        SourceSoundIsColumns(t, id, release, rows[i]);
        RowsAreAccepted(t, id, rows, rows[i].decision);
      }
      forall d | d in AcceptedRows(t.decisions, id)
        ensures exists i :: 0 <= i < |rows| && rows[i].decision == d
      {
        RowsAreAccepted(t, id, rows, d);
      }
    }
  }

  /** The body of the loop: None where it raises. */
  method FreezeOne(name: (Id, Id) -> Id, t: Tables, now: Tables, ghost done: set<Id>, id: Id, rows: seq<Row>)
    returns (next: Option<Tables>)
    requires Injective(name) && Keyed(t) && FrozenSoFar(name, t, now, done)
    requires id in t.tasks && id !in done && QueryOf(rows, t, id)
    ensures next.Some? <==> Freezable(t, id, rows)
    ensures next.Some? ==>
              && FrozenSoFar(name, t, next.value, done + {id})
              && next.value.versions == now.versions
              && next.value.releases == ApproveIfReviewing(now.releases, now.versions, t.tasks[id].identity.releaseVersion)
              && LeftReview(next.value, t.tasks[id])
  {
    var task := t.tasks[id];
    if task.completedAt.None? { return None; }
    var version := t.versions[task.identity.releaseVersion];
    var values := FreezeTask(name, task, id, version.release, rows);
    if values.None? { return None; }
    var releases := ApproveIfReviewing(now.releases, now.versions, task.identity.releaseVersion);
    OneMoreTask(name, t, now, done, id, rows, values.value, releases);
    next := Some(now.(selections := now.selections + Elements(values.value), releases := releases));
  }

  /** The state after these completed tasks. */
  ghost predicate FrozenThese(name: (Id, Id) -> Id, t: Tables, now: Tables, done: set<Id>, query: map<Id, seq<Row>>)
    requires Keyed(t)
  {
    && FrozenSoFar(name, t, now, done) && Approves(t, now.releases, done)
    && forall id :: id in done ==> id in query && Freezable(t, id, query[id]) && LeftReview(now, t.tasks[id])
  }

  lemma FrozenOneMore(name: (Id, Id) -> Id, t: Tables, now: Tables, next: Tables, done: set<Id>, query: map<Id, seq<Row>>, id: Id)
    requires Keyed(t) && FrozenThese(name, t, now, done, query) && FrozenSoFar(name, t, next, done + {id})
    requires id in t.tasks && id in query && Freezable(t, id, query[id]) && LeftReview(next, t.tasks[id])
    requires next.versions == now.versions
    requires next.releases == ApproveIfReviewing(now.releases, now.versions, t.tasks[id].identity.releaseVersion)
    ensures FrozenThese(name, t, next, done + {id}, query)
  {
    ApprovesOneMore(t, now.releases, done, id);
    forall other | other in done
      ensures LeftReview(next, t.tasks[other])
    {
      ApprovalKeepsLeft(now, next, t.tasks[id].identity.releaseVersion, t.tasks[other]);
    }
  }

  lemma ElementsGrow(completed: seq<Id>, n: nat)
    requires n < |completed|
    ensures Elements(completed[..n + 1]) == Elements(completed[..n]) + {completed[n]}
  {
    assert completed[..n + 1] == completed[..n] + [completed[n]];
  }

  lemma NothingFrozen(name: (Id, Id) -> Id, t: Tables, query: map<Id, seq<Row>>)
    requires Keyed(t) && t.selections == {}
    ensures FrozenThese(name, t, t, {}, query)
  {
    assert t == t.(selections := t.selections, releases := t.releases);
  }

  lemma AllFrozen(name: (Id, Id) -> Id, t: Tables, now: Tables, completed: seq<Id>, query: map<Id, seq<Row>>)
    requires CompletedTasks(t, completed, query) && Keyed(t) && FrozenThese(name, t, now, Elements(completed), query)
    ensures Valid(now) && now == t.(selections := now.selections, releases := now.releases)
    ensures Approves(t, now.releases, Elements(completed))
    ensures forall id :: id in completed ==>
              Freezable(t, id, query[id]) && FrozenSnapshot(now, id) && LeftReview(now, t.tasks[id])
    ensures forall s :: s in now.selections ==> s.task in completed && ValueSound(name, t, s)
  {
    assert forall id :: id in completed <==> id in Elements(completed);
    FrozenIsValid(name, t, now, Elements(completed));
  }

  /** The loop of `_backfill_completed_selections`. */
  method FreezeEach(name: (Id, Id) -> Id, t: Tables, completed: seq<Id>, query: map<Id, seq<Row>>)
    returns (result: Option<Tables>)
    requires Injective(name) && Keyed(t) && t.selections == {} && CompletedTasks(t, completed, query)
    ensures result.Some? ==> FrozenThese(name, t, result.value, Elements(completed), query)
    ensures result.None? ==> exists id :: id in completed && !Freezable(t, id, query[id])
  {
    var now := t;
    NothingFrozen(name, t, query);
    for n := 0 to |completed|
      invariant FrozenThese(name, t, now, Elements(completed[..n]), query)
    {
      var id := completed[n];
      var next := FreezeOne(name, t, now, Elements(completed[..n]), id, query[id]);
      if next.None? { return None; }
      FrozenOneMore(name, t, now, next.value, Elements(completed[..n]), query, id);
      ElementsGrow(completed, n);
      now := next.value;
    }
    assert completed[..|completed|] == completed;
    result := Some(now);
  }

  /**
    _backfill_completed_selections: None where it raises.  On success every completed task has
    its frozen snapshot and no release stays in review behind a completed task.
  */
  method FreezeCompleted(name: (Id, Id) -> Id, t: Tables, completed: seq<Id>, query: map<Id, seq<Row>>)
    returns (result: Option<Tables>)
    requires Injective(name) && Keyed(t) && t.selections == {} && CompletedTasks(t, completed, query)
    ensures result.Some? <==> forall id :: id in completed ==> TaskFreezable(t, id)
    ensures result.Some? ==>
              && Valid(result.value)
              && result.value == t.(selections := result.value.selections, releases := result.value.releases)
              && Approves(t, result.value.releases, Elements(completed))
              && (forall id :: id in completed ==> FrozenSnapshot(result.value, id) && LeftReview(result.value, t.tasks[id]))
              && (forall s :: s in result.value.selections ==>
                    s.task in completed && s.id == name(s.task, s.decision) && SelectionSound(t, s) && CopiesSource(t, s))
  {
    forall id | id in completed
      ensures Freezable(t, id, query[id]) <==> TaskFreezable(t, id)
    {
      FreezableExactly(t, id, query[id]);
    }
    result := FreezeEach(name, t, completed, query);
    if result.Some? { AllFrozen(name, t, result.value, completed, query); }
  }
}
