/**
  The append-only decision log of migration 0006: linear revision chains per task and asset,
  and the four forms in which the migrations ask for the latest decision.
*/
module ReviewLog {
  import opened Basics

  datatype Verdict = Accept | Reject | Hold

  datatype Decision = Decision(
    id: Id,
    task: Id,
    run: Id,
    asset: Id,
    revision: int,
    verdict: Verdict,
    supersedesRevision: Option<int>,
    supersedesId: Option<Id>)

  type Log = seq<Decision>

  predicate SameChain(a: Decision, b: Decision) {
    a.task == b.task && a.asset == b.asset
  }

  /**
    The CHECK constraints on one row.  SQL lets a CHECK pass when it is unknown, so a row with
    revision > 1 may leave supersedes_revision NULL.
  */
  predicate ChecksPass(d: Decision) {
    && d.revision > 0
    && (|| (d.revision == 1 && d.supersedesRevision.None? && d.supersedesId.None?)
        || (d.revision > 1 && d.supersedesRevision in {None, Some(d.revision - 1)} && d.supersedesId.Some?))
  }

  predicate Supersedes(d: Decision, prior: Decision) {
    SameChain(prior, d) && d.supersedesRevision == Some(prior.revision) && d.supersedesId == Some(prior.id)
  }

  /**
    What the constraints of the table demand of a new row: CHECKs, the self foreign key, which
    is not enforced when one of its columns is NULL, and the unique keys.
  */
  predicate Appendable(log: Log, d: Decision) {
    && ChecksPass(d)
    && (d.supersedesRevision.Some? && d.supersedesId.Some? ==> HasPrior(log, d))
    && forall e :: e in log ==>
         && e.id != d.id
         && !(SameChain(e, d) && e.revision == d.revision)
         && (e.supersedesId.Some? ==> e.supersedesId != d.supersedesId)
  }

  /** Logs that grow row by row; UPDATE and DELETE are rejected. */
  ghost predicate WellFormed(log: Log) {
    log != [] ==>
      WellFormed(log[..|log| - 1]) && Appendable(log[..|log| - 1], log[|log| - 1])
  }

  /** The link columns of a row with revision > 1 are both set. */
  predicate LinkColumnsSet(d: Decision) {
    d.revision == 1 || d.supersedesRevision.Some?
  }

  predicate HasPrior(log: Log, d: Decision) {
    exists prior :: prior in log && Supersedes(d, prior)
  }

  /** Every revision but the first names the one before it. */
  ghost predicate Linked(log: Log) {
    forall d {:trigger HasPrior(log, d)} :: d in log && d.revision > 1 ==> HasPrior(log, d)
  }

  predicate HasRevision(log: Log, d: Decision, revision: int) {
    exists e :: e in log && SameChain(e, d) && e.revision == revision
  }

  /** The revisions of every task and asset are 1..k. */
  ghost predicate Contiguous(log: Log) {
    forall d, revision :: d in log && 1 <= revision <= d.revision ==> HasRevision(log, d, revision)
  }

  lemma {:induction false} RowPasses(log: Log, d: Decision)
    requires WellFormed(log) && d in log
    ensures ChecksPass(d)
    ensures d.revision > 1 && d.supersedesRevision.Some? ==> HasPrior(log, d)
  {
    var before, last := log[..|log| - 1], log[|log| - 1];
    assert log == before + [last];
    if d in before { RowPasses(before, d); }
    if HasPrior(before, d) {
      var prior :| prior in before && Supersedes(d, prior);
      assert prior in log;
    }
  }

  lemma {:induction false} KeysIdentifyRows(log: Log, d: Decision, e: Decision)
    requires WellFormed(log) && d in log && e in log
    requires d.id == e.id || (SameChain(d, e) && d.revision == e.revision)
    ensures d == e
  {
    var before, last := log[..|log| - 1], log[|log| - 1];
    assert log == before + [last];
    if d in before && e in before { KeysIdentifyRows(before, d, e); }
  }

  /** The constraints alone do not give a chain: revision 2 can be inserted over nothing. */
  lemma ChainsCanHaveGaps(task: Id, run: Id, asset: Id)
    ensures var d := Decision(1, task, run, asset, 2, Accept, None, Some(0));
            WellFormed([d]) && !Linked([d]) && !Contiguous([d])
  {
    var d := Decision(1, task, run, asset, 2, Accept, None, Some(0));
    assert [d][..0] == [];
    assert d in [d] && !HasPrior([d], d) && !HasRevision([d], d, 1);
  }

  /** Over such a gap the end of the chain and the newest revision are different rows. */
  lemma ChainEndCanBeOutdated(task: Id, run: Id, asset: Id)
    ensures var first := Decision(1, task, run, asset, 1, Accept, None, None);
            var second := Decision(2, task, run, asset, 2, Reject, None, Some(0));
            WellFormed([first, second]) && ChainEnd([first, second], first) && !NoNewer([first, second], first)
  {
    var first := Decision(1, task, run, asset, 1, Accept, None, None);
    var second := Decision(2, task, run, asset, 2, Reject, None, Some(0));
    assert [first, second][..1] == [first] && [first][..0] == [];
    assert second in [first, second] && SameChain(second, first);
  }

  /** A log is linked exactly when no row left its link columns NULL ... */
  lemma LinkedExactlyWhenColumnsSet(log: Log)
    requires WellFormed(log)
    ensures Linked(log) <==> forall d :: d in log ==> LinkColumnsSet(d)
  {
    forall d | d in log && d.revision > 1
      ensures d.supersedesRevision.Some? ==> HasPrior(log, d)
    {
      RowPasses(log, d);
    }
    if Linked(log) {
      forall d | d in log
        ensures LinkColumnsSet(d)
      {
        RowPasses(log, d);
        if d.revision > 1 {
          assert HasPrior(log, d);
          var prior :| prior in log && Supersedes(d, prior);
        }
      }
    }
  }

  /** ... and one INSERT keeps it linked exactly when the new row sets them. */
  lemma InsertKeepsLinked(log: Log, d: Decision)
    requires WellFormed(log) && Linked(log) && Appendable(log, d)
    ensures WellFormed(log + [d])
    ensures Linked(log + [d]) <==> LinkColumnsSet(d)
  {
    assert (log + [d])[..|log|] == log;
    LinkedExactlyWhenColumnsSet(log);
    LinkedExactlyWhenColumnsSet(log + [d]);
    assert d in log + [d];
    assert forall e :: e in log ==> e in log + [d];
  }

  /** Linked chains are contiguous. */
  lemma {:induction false} LinkedChainReaches(log: Log, d: Decision, revision: int)
    requires WellFormed(log) && Linked(log) && d in log && 1 <= revision <= d.revision
    ensures HasRevision(log, d, revision)
    decreases d.revision - revision
  {
    if revision == d.revision {
      assert SameChain(d, d);
    } else {
      LinkedChainReaches(log, d, revision + 1);
      var next :| next in log && SameChain(next, d) && next.revision == revision + 1;
      RowPasses(log, next);
      assert HasPrior(log, next);
      var prior :| prior in log && Supersedes(next, prior);
      assert SameChain(prior, d);
    }
  }

  lemma LinkedIsContiguous(log: Log)
    requires WellFormed(log) && Linked(log)
    ensures Contiguous(log)
  {
    forall d, revision | d in log && 1 <= revision <= d.revision
      ensures HasRevision(log, d, revision)
    {
      LinkedChainReaches(log, d, revision);
    }
  }

  /** The revision before the row's own is there, or the row is the first. */
  predicate HasPredecessor(log: Log, d: Decision) {
    d.revision == 1 || HasRevision(log, d, d.revision - 1)
  }

  /** A log is contiguous exactly when every revision above 1 finds the one before it ... */
  lemma ContiguousExactlyWithPredecessors(log: Log)
    requires WellFormed(log)
    ensures Contiguous(log) <==> forall d :: d in log ==> HasPredecessor(log, d)
  {
    forall d | d in log
      ensures d.revision >= 1
    {
      RowPasses(log, d);
    }
    if forall d :: d in log ==> HasPredecessor(log, d) {
      forall d, revision | d in log && 1 <= revision <= d.revision
        ensures HasRevision(log, d, revision)
      {
        PredecessorsReach(log, d, revision);
      }
    }
  }

  lemma {:induction false} PredecessorsReach(log: Log, d: Decision, revision: int)
    requires (forall e :: e in log ==> HasPredecessor(log, e)) && d in log && 1 <= revision <= d.revision
    ensures HasRevision(log, d, revision)
    decreases d.revision - revision
  {
    if revision == d.revision {
      assert SameChain(d, d);
    } else {
      PredecessorsReach(log, d, revision + 1);
      var next :| next in log && SameChain(next, d) && next.revision == revision + 1;
      assert HasPredecessor(log, next);
      var prior :| prior in log && SameChain(prior, next) && prior.revision == revision;
      assert SameChain(prior, d);
    }
  }

  /** ... and one INSERT keeps it contiguous exactly when the new row does, whatever its link columns say. */
  lemma InsertKeepsContiguous(log: Log, d: Decision)
    requires WellFormed(log) && Contiguous(log) && Appendable(log, d)
    ensures Contiguous(log + [d]) <==> HasPredecessor(log, d)
  {
    var longer := log + [d];
    assert longer[..|log|] == log;
    ContiguousExactlyWithPredecessors(log);
    ContiguousExactlyWithPredecessors(longer);
    assert d in longer && forall e :: e in longer <==> e in log || e == d;
    forall e | e in log
      ensures HasPredecessor(longer, e)
    {
      assert HasPredecessor(log, e);
    }
    assert HasPredecessor(longer, d) <==> HasPredecessor(log, d);
  }

  ghost predicate ContiguousAfter(log: Log, n: nat)
    requires n <= |log|
  {
    Contiguous(log[..n])
  }

  predicate FindsPredecessor(log: Log, i: nat)
    requires i < |log|
  {
    HasPredecessor(log[..i], log[i])
  }

  /** A log is contiguous after every INSERT exactly when each row found its predecessor when it was inserted. */
  lemma {:induction false} ContiguousThroughout(log: Log)
    requires WellFormed(log)
    ensures (forall n :: 0 <= n <= |log| ==> ContiguousAfter(log, n)) <==> forall i :: 0 <= i < |log| ==> FindsPredecessor(log, i)
  {
    if log == [] {
      assert ContiguousAfter(log, 0);
    } else {
      var n := |log| - 1;
      var before := log[..n];
      ContiguousThroughout(before);
      forall k | 0 <= k <= n
        ensures ContiguousAfter(before, k) <==> ContiguousAfter(log, k)
        ensures k < n ==> (FindsPredecessor(before, k) <==> FindsPredecessor(log, k))
      {
        assert before[..k] == log[..k];
      }
      assert before + [log[n]] == log && log[..n + 1] == log && before[..n] == before;
      assert ContiguousAfter(log, n) <==> Contiguous(before);
      if Contiguous(before) {
        InsertKeepsContiguous(before, log[n]);
        assert ContiguousAfter(log, n + 1) <==> FindsPredecessor(log, n);
      }
    }
  }

  // -------------------------------------------------------------------- latest decisions

  /** NOT EXISTS newer. */
  predicate NoNewer(log: Log, d: Decision) {
    forall newer :: newer in log && SameChain(newer, d) ==> newer.revision <= d.revision
  }

  /** The end of the chain: nothing supersedes it. */
  predicate ChainEnd(log: Log, d: Decision) {
    forall later :: later in log ==> !Supersedes(later, d)
  }

  /** GROUP BY asset_id, max(revision). */
  function MaxRevision(log: Log, task: Id, asset: Id): int {
    if log == [] then 0
    else
      var before, last := MaxRevision(log[..|log| - 1], task, asset), log[|log| - 1];
      if last.task == task && last.asset == asset && last.revision > before then last.revision else before
  }

  lemma {:induction false} MaxRevisionIsMax(log: Log, task: Id, asset: Id)
    ensures forall d :: d in log && d.task == task && d.asset == asset ==> d.revision <= MaxRevision(log, task, asset)
    ensures MaxRevision(log, task, asset) > 0 ==>
              exists d :: d in log && d.task == task && d.asset == asset && d.revision == MaxRevision(log, task, asset)
  {
    if log != [] {
      assert log == log[..|log| - 1] + [log[|log| - 1]];
      MaxRevisionIsMax(log[..|log| - 1], task, asset);
    }
  }

  /** NOT EXISTS newer and the group-by-max join pick the same rows of every log. */
  lemma NoNewerIsGroupMax(log: Log, d: Decision)
    requires WellFormed(log) && d in log
    ensures NoNewer(log, d) <==> d.revision == MaxRevision(log, d.task, d.asset)
  {
    RowPasses(log, d);
    MaxRevisionIsMax(log, d.task, d.asset);
  }

  /** In a linked log they also pick the ends of the chains. */
  lemma NoNewerIsChainEnd(log: Log, d: Decision)
    requires WellFormed(log) && Linked(log) && d in log
    ensures NoNewer(log, d) <==> ChainEnd(log, d)
  {
    if !NoNewer(log, d) {
      var newer :| newer in log && SameChain(newer, d) && newer.revision > d.revision;
      SuccessorExists(log, d, newer);
    }
    if !ChainEnd(log, d) {
      var later :| later in log && Supersedes(later, d);
      RowPasses(log, later);
    }
  }

  lemma SuccessorExists(log: Log, d: Decision, newer: Decision)
    requires WellFormed(log) && Linked(log) && d in log && newer in log
    requires SameChain(newer, d) && newer.revision > d.revision
    ensures !ChainEnd(log, d)
  {
    RowPasses(log, d);
    LinkedChainReaches(log, newer, d.revision + 1);
    var next :| next in log && SameChain(next, newer) && next.revision == d.revision + 1;
    RowPasses(log, next);
    assert HasPrior(log, next);
    var prior :| prior in log && Supersedes(next, prior);
    KeysIdentifyRows(log, prior, d);
  }

  /** NOT EXISTS newer and the end of the chain pick the same rows. */
  ghost predicate EndsAreNewest(log: Log) {
    forall d :: d in log ==> (NoNewer(log, d) <==> ChainEnd(log, d))
  }

  /** The row starts its chain, or supersedes the newest row of it. */
  predicate ExtendsNewest(log: Log, d: Decision) {
    || (forall e :: e in log ==> !SameChain(e, d))
    || exists e :: e in log && NoNewer(log, e) && Supersedes(d, e)
  }

  /** The newest row of a chain is an end of it, in every log. */
  lemma NewestIsEnd(log: Log, d: Decision)
    requires WellFormed(log) && d in log && NoNewer(log, d)
    ensures ChainEnd(log, d)
  {
    if !ChainEnd(log, d) {
      var later :| later in log && Supersedes(later, d);
      RowPasses(log, later);
    }
  }

  /** Nothing older supersedes a new row: the foreign key had to find its id. */
  lemma NewRowIsEnd(log: Log, d: Decision)
    requires WellFormed(log) && Appendable(log, d)
    ensures ChainEnd(log + [d], d)
  {
    forall later | later in log
      ensures !Supersedes(later, d)
    {
      RowPasses(log, later);
      assert HasPrior(log, later) ==> later.supersedesId != Some(d.id);
    }
  }

  lemma {:induction false} SomeNewest(log: Log, d: Decision) returns (newest: Decision)
    requires d in log
    ensures newest in log && SameChain(newest, d) && NoNewer(log, newest)
  {
    MaxRevisionIsMax(log, d.task, d.asset);
    NewestAbove(log, d, MaxRevision(log, d.task, d.asset));
    newest :| newest in log && SameChain(newest, d) && NoNewer(log, newest);
  }

  lemma {:induction false} NewestAbove(log: Log, d: Decision, limit: int)
    requires d in log && forall e :: e in log && SameChain(e, d) ==> e.revision <= limit
    ensures exists newest :: newest in log && SameChain(newest, d) && NoNewer(log, newest)
    decreases limit - d.revision
  {
    if NoNewer(log, d) {
      assert SameChain(d, d);
    } else {
      var newer :| newer in log && SameChain(newer, d) && newer.revision > d.revision;
      NewestAbove(log, newer, limit);
    }
  }

  lemma ExtendingKeepsAgreement(log: Log, d: Decision)
    requires WellFormed(log) && Appendable(log, d) && EndsAreNewest(log) && ExtendsNewest(log, d)
    ensures EndsAreNewest(log + [d])
  {
    var longer := log + [d];
    assert longer[..|log|] == log;
    NewRowIsEnd(log, d);
    forall e | e in longer
      ensures NoNewer(longer, e) <==> ChainEnd(longer, e)
    {
      if e in log && SameChain(e, d) {
        var newest :| newest in log && NoNewer(log, newest) && Supersedes(d, newest);
        assert d in longer && d.revision == newest.revision + 1;
        if NoNewer(log, e) { KeysIdentifyRows(log, e, newest); }
      } else if e == d {
        assert NoNewer(longer, d);
      }
    }
  }

  lemma AgreementExtends(log: Log, d: Decision)
    requires WellFormed(log) && Appendable(log, d) && EndsAreNewest(log + [d])
    ensures EndsAreNewest(log) && ExtendsNewest(log, d)
  {
    var longer := log + [d];
    assert longer[..|log|] == log && d in longer;
    NewRowIsEnd(log, d);
    assert NoNewer(longer, d);
    forall e | e in log
      ensures NoNewer(log, e) <==> ChainEnd(log, e)
    {
      if NoNewer(log, e) { NewestIsEnd(log, e); }
      assert e in longer;
    }
    if e :| e in log && SameChain(e, d) {
      var newest := SomeNewest(log, e);
      assert newest in longer && SameChain(d, newest);
      assert !NoNewer(longer, newest);
    }
  }

  /**
    One INSERT keeps the two forms in agreement exactly when the new row starts its chain or
    supersedes the newest row of it; once they disagree they do so for good.
  */
  lemma InsertKeepsAgreement(log: Log, d: Decision)
    requires WellFormed(log) && Appendable(log, d)
    ensures EndsAreNewest(log + [d]) <==> EndsAreNewest(log) && ExtendsNewest(log, d)
  {
    if EndsAreNewest(log + [d]) { AgreementExtends(log, d); }
    if EndsAreNewest(log) && ExtendsNewest(log, d) { ExtendingKeepsAgreement(log, d); }
  }

  predicate ExtendsAt(log: Log, i: nat)
    requires i < |log|
  {
    ExtendsNewest(log[..i], log[i])
  }

  ghost predicate AllExtend(log: Log) {
    forall i :: 0 <= i < |log| ==> ExtendsAt(log, i)
  }

  lemma AllExtendButLast(log: Log, d: Decision)
    ensures AllExtend(log + [d]) <==> AllExtend(log) && ExtendsNewest(log, d)
  {
    var longer := log + [d];
    forall i | 0 <= i < |log|
      ensures ExtendsAt(longer, i) <==> ExtendsAt(log, i)
    {
      assert longer[..i] == log[..i];
    }
    assert longer[..|log|] == log;
    assert ExtendsAt(longer, |log|) <==> ExtendsNewest(log, d);
  }

  /** Over whole logs: the forms agree exactly when every row extended the newest of its chain. */
  lemma {:induction false} EndsAreNewestExactly(log: Log)
    requires WellFormed(log)
    ensures EndsAreNewest(log) <==> AllExtend(log)
  {
    if log != [] {
      var before, last := log[..|log| - 1], log[|log| - 1];
      EndsAreNewestExactly(before);
      InsertKeepsAgreement(before, last);
      AllExtendButLast(before, last);
      assert before + [last] == log;
    }
  }

  function Chain(log: Log, task: Id, asset: Id): set<Decision> {
    set d | d in log && d.task == task && d.asset == asset
  }

  /** A contiguous chain has exactly the revisions 1..k. */
  lemma ChainHasEveryRevision(log: Log, task: Id, asset: Id, r: int)
    requires WellFormed(log) && Contiguous(log)
    ensures (exists d :: d in Chain(log, task, asset) && d.revision == r) <==> 1 <= r <= MaxRevision(log, task, asset)
  {
    MaxRevisionIsMax(log, task, asset);
    if 1 <= r <= MaxRevision(log, task, asset) {
      var top :| top in log && top.task == task && top.asset == asset && top.revision == MaxRevision(log, task, asset);
      assert HasRevision(log, top, r);
      var d :| d in log && SameChain(d, top) && d.revision == r;
      assert d in Chain(log, task, asset);
    }
    if d :| d in Chain(log, task, asset) && d.revision == r {
      RowPasses(log, d);
    }
  }

  /** Its greatest revision is its number of rows. */
  lemma ChainSizeIsMaxRevision(log: Log, task: Id, asset: Id)
    requires WellFormed(log) && Contiguous(log)
    ensures |Chain(log, task, asset)| == MaxRevision(log, task, asset)
  {
    NonNegativeMax(log, task, asset);
    var chain, k := Chain(log, task, asset), MaxRevision(log, task, asset);
    var revisions := set d | d in chain :: d.revision;
    forall r
      ensures r in revisions <==> r in UpTo(k)
    {
      ChainHasEveryRevision(log, task, asset, r);
    }
    assert revisions == UpTo(k);
    forall d, e | d in chain && e in chain && d.revision == e.revision
      ensures d == e
    {
      KeysIdentifyRows(log, d, e);
    }
    InjectiveImageSize(chain, revisions, (d: Decision) => d.revision);
  }

  lemma {:induction false} NonNegativeMax(log: Log, task: Id, asset: Id)
    ensures MaxRevision(log, task, asset) >= 0
  {
    if log != [] { NonNegativeMax(log[..|log| - 1], task, asset); }
  }

  // -------------------------------------------------------------------- accepted assets

  /** The rows counted by the acceptance-target guards. */
  function AcceptedRows(log: Log, task: Id): set<Decision> {
    set d | d in log && d.task == task && d.verdict.Accept? && NoNewer(log, d)
  }

  /** The assets of a task whose highest-revision decision is accept. */
  ghost function AcceptedAssets(log: Log, task: Id): set<Id> {
    set d | d in AcceptedRows(log, task) :: d.asset
  }

  lemma AcceptedRowsBijectWithAssets(log: Log, task: Id)
    requires WellFormed(log)
    ensures forall d, e :: d in AcceptedRows(log, task) && e in AcceptedRows(log, task) && d.asset == e.asset ==> d == e
    ensures |AcceptedRows(log, task)| == |AcceptedAssets(log, task)|
  {
    forall d, e | d in AcceptedRows(log, task) && e in AcceptedRows(log, task) && d.asset == e.asset
      ensures d == e
    {
      assert SameChain(d, e);
      KeysIdentifyRows(log, d, e);
    }
    InjectiveImageSize(AcceptedRows(log, task), AcceptedAssets(log, task), (d: Decision) => d.asset);
  }

  // -------------------------------------------------------------------- the dictionary loop of 0008

  /** ORDER BY asset_id, revision. */
  predicate Ordered(rows: seq<Decision>) {
    forall i, j :: 0 <= i < j < |rows| ==>
      rows[i].asset < rows[j].asset || (rows[i].asset == rows[j].asset && rows[i].revision <= rows[j].revision)
  }

  /** The rows of one task in the order of the query. */
  ghost predicate QueryOf(rows: seq<Decision>, log: Log, task: Id) {
    && Ordered(rows)
    && (forall d :: d in rows <==> d in log && d.task == task)
    && (forall i, j :: 0 <= i < j < |rows| ==> rows[i] != rows[j])
  }

  /** The dictionary maps each decided asset of the task to its latest decision. */
  ghost predicate IsLatestOf(latest: map<Id, Decision>, log: Log, task: Id) {
    && (forall a :: a in latest ==>
          latest[a] in log && latest[a].task == task && latest[a].asset == a && NoNewer(log, latest[a]))
    && (forall d :: d in log && d.task == task ==> d.asset in latest)
  }

  /** `latest[asset] = decision`, row after row. */
  method LatestByOverwrite(rows: seq<Decision>, ghost log: Log, ghost task: Id) returns (latest: map<Id, Decision>)
    requires QueryOf(rows, log, task)
    ensures IsLatestOf(latest, log, task)
  {
    latest := map[];
    for n := 0 to |rows|
      invariant forall a :: a in latest ==> latest[a] in rows[..n] && latest[a].asset == a
      invariant forall i :: 0 <= i < n ==> rows[i].asset in latest && rows[i].revision <= latest[rows[i].asset].revision
    {
      latest := latest[rows[n].asset := rows[n]];
    }
    forall a | a in latest
      ensures latest[a] in log && latest[a].task == task && NoNewer(log, latest[a])
    {
      assert latest[a] in rows;
      forall newer | newer in log && SameChain(newer, latest[a])
        ensures newer.revision <= latest[a].revision
      {
        assert newer in rows;
      }
    }
  }

  /** `sum(1 for decision in latest.values() if decision["decision"] == "accept")`. */
  method CountAccepted(latest: map<Id, Decision>, ghost log: Log, ghost task: Id) returns (accepted: nat)
    requires WellFormed(log)
    requires IsLatestOf(latest, log, task)
    ensures accepted == |AcceptedRows(log, task)|
  {
    accepted := 0;
    var rest := latest.Keys;
    ghost var counted: set<Id> := {};
    while rest != {}
      invariant rest <= latest.Keys && accepted == |counted|
      invariant counted == set a | a in latest.Keys - rest && latest[a].verdict.Accept?
      decreases rest
    {
      var a :| a in rest;
      rest := rest - {a};
      if latest[a].verdict.Accept? {
        accepted := accepted + 1;
        counted := counted + {a};
      }
    }
    CountedAreAccepted(latest, log, task);
    assert counted == set a | a in latest && latest[a].verdict.Accept?;
  }

  lemma CountedAreAccepted(latest: map<Id, Decision>, log: Log, task: Id)
    requires WellFormed(log)
    requires IsLatestOf(latest, log, task)
    ensures |set a | a in latest && latest[a].verdict.Accept?| == |AcceptedRows(log, task)|
  {
    var counted := set a | a in latest && latest[a].verdict.Accept?;
    forall d | d in AcceptedRows(log, task)
      ensures d.asset in counted && latest[d.asset] == d
    {
      assert SameChain(d, latest[d.asset]);
      KeysIdentifyRows(log, d, latest[d.asset]);
    }
    forall a | a in counted
      ensures latest[a] in AcceptedRows(log, task)
    {
    }
    assert counted == AcceptedAssets(log, task) by {
      assert forall a :: a in counted ==> latest[a] in AcceptedRows(log, task) && latest[a].asset == a;
    }
    AcceptedRowsBijectWithAssets(log, task);
  }
}
