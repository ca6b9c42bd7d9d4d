/**
  Which open reviews some run can still complete (migrations 0002, 0009, 0018, 0039), while
  nobody ranks assets of their scoring run, whose rankings are frozen, and no asset changes its
  release or its kind.
*/
module Completing {
  import opened Assets
  import opened Basics
  import opened Releases
  import opened Review
  import opened ReviewLog

  predicate ShownAt(s: Selection, plan: seq<Id>) {
    1 <= s.displayOrder <= |plan| && plan[s.displayOrder - 1] == s.asset
  }

  function ReleaseOf(t: Tables, id: Id): Id
    requires id in t.tasks && InVersions(t, t.tasks[id].identity.releaseVersion)
  {
    t.versions[t.tasks[id].identity.releaseVersion].release
  }

  /** A raw master of the release of the review. */
  predicate Master(t: Tables, id: Id, asset: Id)
    requires id in t.tasks && InVersions(t, t.tasks[id].identity.releaseVersion)
  {
    asset in t.assets && t.assets[asset].kind.RawMaster? && t.assets[asset].release == ReleaseOf(t, id)
  }

  /**
    Ranked raw masters of the release in increasing rank, at most as many as the review may
    show, with every frozen selection in its place.
  */
  ghost predicate Plan(t: Tables, id: Id, plan: seq<Id>) {
    && id in t.tasks
    && var identity := t.tasks[id].identity;
    && 0 < |plan| <= identity.rankedAssetCount
    && InVersions(t, identity.releaseVersion)
    && (forall k :: 0 <= k < |plan| ==> (identity.scoringRun, plan[k]) in t.rankings && Master(t, id, plan[k]))
    && (forall k, l :: 0 <= k < l < |plan| ==>
          t.rankings[(identity.scoringRun, plan[k])] < t.rankings[(identity.scoringRun, plan[l])])
    && forall s :: s in SelectionsOf(t, id) ==> ShownAt(s, plan)
  }

  /** All selections of the review were frozen at this time. */
  ghost predicate FrozenAt(t: Tables, id: Id, time: int)
    requires id in t.tasks
  {
    time >= t.tasks[id].identity.createdAt && forall s :: s in SelectionsOf(t, id) ==> s.frozenAt == time
  }

  /** No two selections of the review copy the same stored object. */
  ghost predicate DistinctObjects(t: Tables, id: Id) {
    forall s, o :: s in SelectionsOf(t, id) && o in SelectionsOf(t, id) && s != o ==> ObjectOf(s.source) != ObjectOf(o.source)
  }

  /** The selections frozen so far are current, of one time, of different objects, and extend to a plan. */
  ghost predicate CanComplete(t: Tables, id: Id)
    requires id in t.tasks
  {
    && (forall s :: s in SelectionsOf(t, id) ==> !Outdated(t, s))
    && (exists time :: FrozenAt(t, id, time))
    && DistinctObjects(t, id)
    && (exists plan :: Plan(t, id, plan))
  }

  /** The statement ranks nothing in the run, and a row of an asset that was there keeps release and kind. */
  predicate Quiet(t: Tables, run: Id, s: Statement) {
    && !(s.InsertRanking? && s.run == run)
    && (s.PutAsset? && s.id in t.assets ==> s.row.kind == t.assets[s.id].kind && s.row.release == t.assets[s.id].release)
  }

  ghost predicate Steady(t: Tables, statements: seq<Statement>, run: Id) {
    forall s :: s in statements ==> Quiet(t, run, s)
  }

  /** The assets are there, of the same release and kind, and the versions are the same. */
  ghost predicate SameMasters(t: Tables, next: Tables) {
    && next.versions == t.versions
    && forall a :: a in t.assets ==>
         a in next.assets && next.assets[a].kind == t.assets[a].kind && next.assets[a].release == t.assets[a].release
  }

  // -------------------------------------------------------------------- a completed review had a plan

  /** The selection copies its asset as it is now. */
  predicate Fresh(t: Tables, id: Id, s: Selection)
    requires id in t.tasks && InVersions(t, t.tasks[id].identity.releaseVersion)
  {
    s.asset in t.assets && CopiesMaster(t.assets[s.asset], ReleaseOf(t, id), s)
  }

  /** Some selection of the review shows the asset in this place. */
  ghost predicate Shows(t: Tables, id: Id, order: int, asset: Id) {
    exists s :: s in SelectionsOf(t, id) && s.displayOrder == order && s.asset == asset
  }

  /** The first n displayed assets of a completed review. */
  lemma {:induction false} Displayed(t: Tables, id: Id, n: nat) returns (plan: seq<Id>)
    requires id in t.tasks && FrozenSnapshot(t, id) && n <= |SelectionsOf(t, id)|
    ensures |plan| == n && forall k :: 0 <= k < n ==> Shows(t, id, k + 1, plan[k])
  {
    plan := [];
    if n > 0 {
      plan := Displayed(t, id, n - 1);
      assert n in DisplayOrders(t, id);
      var s :| s in SelectionsOf(t, id) && s.displayOrder == n;
      plan := plan + [s.asset];
    }
  }

  lemma ShownIsRanked(t: Tables, id: Id, k: int, l: int, asset: Id, later: Id)
    requires Valid(t) && id in t.tasks && FrozenSnapshot(t, id) && Shows(t, id, k, asset) && Shows(t, id, l, later) && k < l
    ensures var run := t.tasks[id].identity.scoringRun;
            (run, asset) in t.rankings && (run, later) in t.rankings && t.rankings[(run, asset)] < t.rankings[(run, later)]
  {
    var s :| s in SelectionsOf(t, id) && s.displayOrder == k && s.asset == asset;
    var o :| o in SelectionsOf(t, id) && o.displayOrder == l && o.asset == later;
    assert SelectionSound(t, s) && SelectionSound(t, o);
  }

  lemma ShownOnce(t: Tables, id: Id, s: Selection, asset: Id)
    requires Valid(t) && s in SelectionsOf(t, id) && Shows(t, id, s.displayOrder, asset)
    ensures s.asset == asset
  {
    var o :| o in SelectionsOf(t, id) && o.displayOrder == s.displayOrder && o.asset == asset;
    assert s != o ==> Apart(s, o);
  }

  lemma ShownAssetRanked(t: Tables, id: Id, k: int, asset: Id)
    requires Valid(t) && id in t.tasks && Shows(t, id, k, asset)
    requires forall s :: s in SelectionsOf(t, id) ==> Fresh(t, id, s)
    ensures (t.tasks[id].identity.scoringRun, asset) in t.rankings && Master(t, id, asset)
  {
    var s :| s in SelectionsOf(t, id) && s.displayOrder == k && s.asset == asset;
    assert SelectionSound(t, s);
  }

  /** Assets shown in their places are ranked masters in increasing rank. */
  lemma ShownPlan(t: Tables, id: Id, plan: seq<Id>)
    requires Valid(t) && id in t.tasks && FrozenSnapshot(t, id) && forall s :: s in SelectionsOf(t, id) ==> Fresh(t, id, s)
    requires forall k :: 0 <= k < |plan| ==> Shows(t, id, k + 1, plan[k])
    ensures var run := t.tasks[id].identity.scoringRun;
            && (forall k :: 0 <= k < |plan| ==> (run, plan[k]) in t.rankings && Master(t, id, plan[k]))
            && forall k, l :: 0 <= k < l < |plan| ==> t.rankings[(run, plan[k])] < t.rankings[(run, plan[l])]
  {
    var run := t.tasks[id].identity.scoringRun;
    forall k | 0 <= k < |plan|
      ensures (run, plan[k]) in t.rankings && Master(t, id, plan[k])
    {
      ShownAssetRanked(t, id, k + 1, plan[k]);
    }
    forall k, l | 0 <= k < l < |plan|
      ensures t.rankings[(run, plan[k])] < t.rankings[(run, plan[l])]
    {
      ShownIsRanked(t, id, k + 1, l + 1, plan[k], plan[l]);
    }
  }

  lemma CompletedHasPlan(t: Tables, id: Id) returns (plan: seq<Id>)
    requires Valid(t) && id in t.tasks && t.tasks[id].state.Completed?
    requires forall s :: s in SelectionsOf(t, id) ==> Fresh(t, id, s)
    ensures Plan(t, id, plan)
  {
    plan := Displayed(t, id, |SelectionsOf(t, id)|);
    assert TaskChecks(t.tasks[id]);
    ShownPlan(t, id, plan);
    forall s | s in SelectionsOf(t, id)
      ensures ShownAt(s, plan)
    {
      assert s.displayOrder in DisplayOrders(t, id);
      ShownOnce(t, id, s, plan[s.displayOrder - 1]);
    }
  }

  /** The rankings of the run are the same. */
  ghost predicate SameRanks(t: Tables, next: Tables, run: Id) {
    forall a :: ((run, a) in next.rankings <==> (run, a) in t.rankings)
                && ((run, a) in t.rankings ==> next.rankings[(run, a)] == t.rankings[(run, a)])
  }

  lemma StepKeepsRanks(t: Tables, s: Statement, run: Id)
    requires !(s.InsertRanking? && s.run == run)
    ensures SameRanks(t, Step(t, s), run)
  {
    if !s.InsertRanking? { assert Step(t, s).rankings == t.rankings; }
  }

  lemma StepKeepsMasters(t: Tables, now: Tables, s: Statement, run: Id)
    requires Quiet(t, run, s) && SameMasters(t, now)
    ensures SameMasters(t, Step(now, s))
  {
  }

  lemma {:induction false} SteadyRun(t: Tables, statements: seq<Statement>, run: Id)
    requires Steady(t, statements, run)
    ensures SameRanks(t, Run(t, statements), run) && SameMasters(t, Run(t, statements))
  {
    if statements != [] {
      var before, s := statements[..|statements| - 1], statements[|statements| - 1];
      SteadyRun(t, before, run);
      assert s in statements;
      StepKeepsRanks(Run(t, before), s, run);
      StepKeepsMasters(t, Run(t, before), s, run);
    }
  }

  lemma StepKeepsTask(t: Tables, s: Statement, id: Id)
    requires id in t.tasks
    ensures id in Step(t, s).tasks && Step(t, s).tasks[id].identity == t.tasks[id].identity
    ensures Step(t, s).tasks[id] != t.tasks[id] ==>
              s.UpdateTask? && s.id == id && s.task == Step(t, s).tasks[id] && TaskUpdateAdmitted(t, id, s.task)
  {
  }

  /** Some statement of the run completed the review. */
  lemma {:induction false} CompletingStep(t: Tables, statements: seq<Statement>, id: Id) returns (k: nat)
    requires id in t.tasks && t.tasks[id].state.Open?
    requires id in Run(t, statements).tasks && Run(t, statements).tasks[id].state.Completed?
    ensures k < |statements| && statements[k].UpdateTask? && statements[k].id == id && statements[k].task.state.Completed?
    ensures TaskUpdateAdmitted(Run(t, statements[..k]), id, statements[k].task)
  {
    k := |statements| - 1;
    var before := statements[..k];
    TaskStays(t, before, id);
    StepKeepsTask(Run(t, before), statements[k], id);
    if Run(t, before).tasks[id].state.Completed? {
      k := CompletingStep(t, before, id);
      assert before[..k] == statements[..k];
    }
  }

  lemma {:induction false} TaskStays(t: Tables, statements: seq<Statement>, id: Id)
    requires id in t.tasks
    ensures id in Run(t, statements).tasks && Run(t, statements).tasks[id].identity == t.tasks[id].identity
  {
    if statements != [] {
      var before := statements[..|statements| - 1];
      TaskStays(t, before, id);
      StepKeepsTask(Run(t, before), statements[|statements| - 1], id);
    }
  }

  /** A plan of the last tables was one before. */
  lemma PlanBefore(t: Tables, last: Tables, id: Id, plan: seq<Id>)
    requires Valid(t) && id in t.tasks && id in last.tasks && last.tasks[id].identity == t.tasks[id].identity
    requires SameRanks(t, last, t.tasks[id].identity.scoringRun) && SameMasters(t, last)
    requires t.selections <= last.selections && Plan(last, id, plan)
    ensures Plan(t, id, plan)
  {
    forall s | s in SelectionsOf(t, id)
      ensures ShownAt(s, plan)
    {
      assert s in SelectionsOf(last, id);
    }
    forall k | 0 <= k < |plan|
      ensures (t.tasks[id].identity.scoringRun, plan[k]) in t.rankings && Master(t, id, plan[k])
    {
      assert Master(last, id, plan[k]);
    }
  }

  /** Selections that copy their assets at one time copy different objects. */
  lemma FreshAreDistinct(t: Tables, id: Id, s: Selection, o: Selection)
    requires Valid(t) && id in t.tasks && s in SelectionsOf(t, id) && o in SelectionsOf(t, id) && s != o
    requires Fresh(t, id, s) && Fresh(t, id, o)
    ensures ObjectOf(s.source) != ObjectOf(o.source)
  {
    assert Apart(s, o);
    assert AssetAdmitted(t.assets, s.asset, t.assets[s.asset]) && AssetAdmitted(t.assets, o.asset, t.assets[o.asset]);
  }

  lemma AllFresh(t: Tables, id: Id, now: Task)
    requires Valid(t) && TaskUpdateAdmitted(t, id, now) && now.state.Completed?
    ensures DistinctObjects(t, id) && forall s :: s in SelectionsOf(t, id) ==> Fresh(t, id, s)
  {
    forall s | s in SelectionsOf(t, id)
      ensures Fresh(t, id, s)
    {
      CompletionMatchesAssets(t, id, now, s);
    }
    forall s, o | s in SelectionsOf(t, id) && o in SelectionsOf(t, id) && s != o
      ensures ObjectOf(s.source) != ObjectOf(o.source)
    {
      FreshAreDistinct(t, id, s, o);
    }
  }

  /** What holds when an update completes the review: its selections are fresh, of one time, and form a plan. */
  lemma AtCompletion(t: Tables, id: Id, now: Task) returns (plan: seq<Id>)
    requires Valid(t) && TaskUpdateAdmitted(t, id, now) && now.state.Completed?
    ensures DistinctObjects(t, id)
    ensures var next := Step(t, UpdateTask(id, now));
            && Valid(next) && Plan(next, id, plan) && FrozenAt(next, id, now.completedAt.value)
            && next.selections == t.selections && next.tasks[id].identity == t.tasks[id].identity
            && next.rankings == t.rankings && next.assets == t.assets && next.versions == t.versions
  {
    var next := Step(t, UpdateTask(id, now));
    AllFresh(t, id, now);
    UpdateEffect(t, id, now);
    StepKeepsValid(t, UpdateTask(id, now));
    assert SelectionsOf(next, id) == SelectionsOf(t, id) && TaskChecks(now);
    assert forall s :: Fresh(next, id, s) <==> Fresh(t, id, s);
    plan := CompletedHasPlan(next, id);
  }

  /** Only a review that can be completed is. */
  lemma CompletedCould(t: Tables, statements: seq<Statement>, id: Id)
    requires Valid(t) && id in t.tasks && t.tasks[id].state.Open? && Steady(t, statements, t.tasks[id].identity.scoringRun)
    requires id in Run(t, statements).tasks && Run(t, statements).tasks[id].state.Completed?
    ensures CanComplete(t, id)
  {
    var k := CompletingStep(t, statements, id);
    var before := statements[..k];
    var last := Run(t, before);
    RunKeepsValid(t, before);
    TaskStays(t, before, id);
    SelectionsOnlyGrow(t, before);
    SteadyRun(t, before, t.tasks[id].identity.scoringRun);
    var plan := AtCompletion(last, id, statements[k].task);
    CouldBefore(t, last, Step(last, statements[k]), id, plan, statements[k].task.completedAt.value);
    forall s | s in SelectionsOf(t, id)
      ensures !Outdated(t, s)
    {
      if Outdated(t, s) { OutdatedSelectionBlocks(t, statements, s); }
    }
  }

  /** What held at the completion held of the selections that were there before. */
  lemma CouldBefore(t: Tables, last: Tables, next: Tables, id: Id, plan: seq<Id>, time: int)
    requires Valid(t) && id in t.tasks && id in last.tasks && last.tasks[id].identity == t.tasks[id].identity
    requires t.selections <= last.selections && DistinctObjects(last, id)
    requires SameRanks(t, last, t.tasks[id].identity.scoringRun) && SameMasters(t, last)
    requires id in next.tasks && next.selections == last.selections && next.tasks[id].identity == last.tasks[id].identity
    requires next.rankings == last.rankings && next.assets == last.assets && next.versions == last.versions
    requires Plan(next, id, plan) && FrozenAt(next, id, time)
    ensures DistinctObjects(t, id) && Plan(t, id, plan) && FrozenAt(t, id, time)
  {
    assert forall s :: s in SelectionsOf(t, id) ==> s in SelectionsOf(last, id) && s in SelectionsOf(next, id);
    PlanBefore(t, next, id, plan);
  }

  // -------------------------------------------------------------------- running one statement after another

  lemma RunRuns()
    ensures Runs(Run, Step)
  {
    forall t, actions, a
      ensures Run(t, actions + [a]) == Step(Run(t, actions), a)
    {
      assert (actions + [a])[..|actions|] == actions;
    }
  }

  lemma RunTwice(t: Tables, first: seq<Statement>, second: seq<Statement>)
    ensures Run(t, first + second) == Run(Run(t, first), second)
  {
    RunRuns();
    RunsCompose(Run, Step, t, first, second);
  }

  lemma RunOne(t: Tables, s: Statement)
    ensures Run(t, [s]) == Step(t, s)
  {
    RunRuns();
    RunsOnce(Run, Step, t, s);
  }

  /** An open review whose selections are current, of this time, and in their places of the plan. */
  ghost predicate Ready(t: Tables, id: Id, plan: seq<Id>, time: int) {
    && Valid(t) && Plan(t, id, plan) && t.tasks[id].state.Open? && FrozenAt(t, id, time) && DistinctObjects(t, id)
    && forall s :: s in SelectionsOf(t, id) ==> !Outdated(t, s)
  }

  // -------------------------------------------------------------------- deciding

  /** A decision that becomes the newest of its chain. */
  ghost predicate Newest(log: Log, d: Decision) {
    Appendable(log, d) && forall e :: e in log && SameChain(e, d) ==> e.revision < d.revision
  }

  predicate Superseded(log: Log, id: Id) {
    exists e :: e in log && e.supersedesId == Some(id)
  }

  /** In a linked log nothing supersedes the newest row of a chain. */
  lemma NewestUnsuperseded(log: Log, d: Decision)
    requires WellFormed(log) && Linked(log) && d in log && NoNewer(log, d)
    ensures !Superseded(log, d.id)
  {
    forall e | e in log && e.supersedesId == Some(d.id)
      ensures false
    {
      RowPasses(log, e);
      assert HasPrior(log, e);
      var prior :| prior in log && Supersedes(e, prior);
      KeysIdentifyRows(log, prior, d);
    }
  }

  lemma UnusedDecisionId(log: Log) returns (id: Id)
    ensures forall e :: e in log ==> e.id != id
  {
    var ids := set e | e in log :: e.id;
    id := Unused(ids);
    forall e | e in log
      ensures e.id != id
    {
      assert e.id in ids;
    }
  }

  lemma UnusedLink(log: Log) returns (link: Id)
    ensures !Superseded(log, link)
  {
    var links := set e | e in log && e.supersedesId.Some? :: e.supersedesId.value;
    link := Unused(links);
    forall e | e in log && e.supersedesId.Some?
      ensures e.supersedesId.value != link
    {
      assert e.supersedesId.value in links;
    }
  }

  /**
    The next decision of a chain.  It links to the newest one unless a row of an unlinked log
    already does; then it leaves supersedes_revision NULL.
  */
  lemma NextDecision(log: Log, task: Id, run: Id, asset: Id, verdict: Verdict) returns (d: Decision)
    requires WellFormed(log)
    ensures Newest(log, d) && d.task == task && d.run == run && d.asset == asset && d.verdict == verdict
    ensures Linked(log) ==> LinkColumnsSet(d)
  {
    var id := UnusedDecisionId(log);
    d := Decision(id, task, run, asset, 1, verdict, None, None);
    if e :| e in log && SameChain(e, d) {
      var newest := SomeNewest(log, e);
      RowPasses(log, newest);
      if Superseded(log, newest.id) {
        var link := UnusedLink(log);
        d := Decision(id, task, run, asset, newest.revision + 1, verdict, None, Some(link));
        if Linked(log) { NewestUnsuperseded(log, newest); }
      } else {
        d := Decision(id, task, run, asset, newest.revision + 1, verdict, Some(newest.revision), Some(newest.id));
        assert Supersedes(d, newest);
      }
    }
  }

  lemma NewestHides(log: Log, d: Decision, e: Decision)
    requires Newest(log, d) && e in log
    ensures NoNewer(log + [d], e) <==> NoNewer(log, e) && !SameChain(e, d)
  {
    assert d in log + [d];
    assert forall n :: n in log ==> n in log + [d];
  }

  lemma NewestIsNewest(log: Log, d: Decision)
    requires Newest(log, d)
    ensures NoNewer(log + [d], d)
  {
  }

  /** A newest decision accepts or rejects exactly its asset. */
  lemma DecisionMovesAsset(log: Log, d: Decision)
    requires Newest(log, d)
    ensures AcceptedAssets(log + [d], d.task) ==
            if d.verdict.Accept? then AcceptedAssets(log, d.task) + {d.asset} else AcceptedAssets(log, d.task) - {d.asset}
  {
    NewestIsNewest(log, d);
    forall e | e in log
      ensures NoNewer(log + [d], e) <==> NoNewer(log, e) && !SameChain(e, d)
    {
      NewestHides(log, d, e);
    }
    var longer := log + [d];
    assert forall e :: e in longer <==> e in log || e == d;
    forall a
      ensures a in AcceptedAssets(longer, d.task) <==>
              if a == d.asset then d.verdict.Accept? else a in AcceptedAssets(log, d.task)
    {
      AssetIsAccepted(log, d.task, a);
      AssetIsAccepted(longer, d.task, a);
      if a == d.asset && d.verdict.Accept? { assert d in longer && NoNewer(longer, d); }
    }
  }

  lemma AssetIsAccepted(log: Log, task: Id, asset: Id)
    ensures asset in AcceptedAssets(log, task) <==>
            exists d :: d in log && d.task == task && d.asset == asset && d.verdict.Accept? && NoNewer(log, d)
  {
    if d :| d in log && d.task == task && d.asset == asset && d.verdict.Accept? && NoNewer(log, d) {
      assert d in AcceptedRows(log, task);
    }
  }

  /** A decision on an asset that is not selected leaves the review as ready as it was. */
  lemma DecisionKeepsReady(t: Tables, id: Id, plan: seq<Id>, time: int, d: Decision)
    requires Ready(t, id, plan, time) && Newest(t.decisions, d) && d.task == id
    requires Valid(t.(decisions := t.decisions + [d]))
    requires forall s :: s in SelectionsOf(t, id) ==> s.asset != d.asset
    ensures Ready(t.(decisions := t.decisions + [d]), id, plan, time)
  {
    var next := t.(decisions := t.decisions + [d]);
    assert SelectionsOf(next, id) == SelectionsOf(t, id);
    forall s | s in SelectionsOf(next, id)
      ensures !Outdated(next, s)
    {
      DecisionKeepsCurrent(t, d, s);
    }
  }

  lemma DecisionKeepsCurrent(t: Tables, d: Decision, s: Selection)
    requires SelectionSound(t, s) && s in t.selections && !Outdated(t, s) && WellFormed(t.decisions)
    requires Newest(t.decisions, d) && s.asset != d.asset
    ensures !Outdated(t.(decisions := t.decisions + [d]), s)
  {
    var e :| e in t.decisions && DecisionOf(e, s);
    var longer := t.decisions + [d];
    forall f | f in longer && f.id == s.decision
      ensures NoNewer(longer, f)
    {
      assert f in t.decisions;
      KeysIdentifyRows(t.decisions, e, f);
      NewestHides(t.decisions, d, f);
    }
  }

  /** The asset of a current selection is accepted. */
  lemma SelectedAccepted(t: Tables, id: Id, s: Selection)
    requires Valid(t) && s in SelectionsOf(t, id) && !Outdated(t, s)
    ensures s.asset in AcceptedAssets(t.decisions, id)
  {
    assert SelectionSound(t, s);
    var e :| e in t.decisions && DecisionOf(e, s);
    AssetIsAccepted(t.decisions, id, s.asset);
  }

  /** The assets whose latest decision disagrees with the plan. */
  ghost function Undecided(t: Tables, id: Id, plan: seq<Id>): set<Id> {
    (AcceptedAssets(t.decisions, id) - Elements(plan)) + (Elements(plan) - AcceptedAssets(t.decisions, id))
  }

  lemma UndecidedIsFree(t: Tables, id: Id, plan: seq<Id>, time: int, asset: Id)
    requires Ready(t, id, plan, time) && asset in Undecided(t, id, plan)
    ensures (t.tasks[id].identity.scoringRun, asset) in t.rankings
    ensures forall s :: s in SelectionsOf(t, id) ==> s.asset != asset
  {
    forall s | s in SelectionsOf(t, id)
      ensures s.asset != asset
    {
      SelectedAccepted(t, id, s);
      assert ShownAt(s, plan);
    }
    if asset in AcceptedAssets(t.decisions, id) {
      var d :| d in AcceptedRows(t.decisions, id) && d.asset == asset;
      assert DecisionSound(t, d);
    }
  }

  lemma DecisionRuns(t: Tables, d: Decision)
    requires DecisionAdmitted(t, d)
    ensures Run(t, [InsertDecision(d)]) == t.(decisions := t.decisions + [d])
  {
    RunOne(t, InsertDecision(d));
  }

  /** Nothing but decisions, linked ones if asked for. */
  ghost predicate OnlyDecisions(statements: seq<Statement>, linked: bool) {
    forall s :: s in statements ==> s.InsertDecision? && (linked ==> LinkColumnsSet(s.decision))
  }

  /** One decision settles one asset. */
  lemma DecideOne(t: Tables, id: Id, plan: seq<Id>, time: int, asset: Id) returns (statements: seq<Statement>)
    requires Ready(t, id, plan, time) && asset in Undecided(t, id, plan)
    ensures OnlyDecisions(statements, Linked(t.decisions))
    ensures var next := Run(t, statements);
            && Ready(next, id, plan, time) && (Linked(t.decisions) ==> Linked(next.decisions))
            && Undecided(next, id, plan) == Undecided(t, id, plan) - {asset}
  {
    var d := PlannedDecision(t, id, plan, time, asset);
    statements := [InsertDecision(d)];
    DecisionRuns(t, d);
    if Linked(t.decisions) { InsertKeepsLinked(t.decisions, d); }
    DecisionSettles(t, id, plan, d);
  }

  /** The decision that the plan asks for. */
  lemma PlannedDecision(t: Tables, id: Id, plan: seq<Id>, time: int, asset: Id) returns (d: Decision)
    requires Ready(t, id, plan, time) && asset in Undecided(t, id, plan)
    ensures DecisionAdmitted(t, d) && Newest(t.decisions, d) && d.task == id && d.asset == asset
    ensures d.verdict.Accept? <==> asset in plan
    ensures Linked(t.decisions) ==> LinkColumnsSet(d)
    ensures Ready(t.(decisions := t.decisions + [d]), id, plan, time)
  {
    UndecidedIsFree(t, id, plan, time, asset);
    d := NextDecision(t.decisions, id, t.tasks[id].identity.scoringRun, asset, if asset in plan then Accept else Reject);
    DecisionKeepsValid(t, d);
    DecisionKeepsReady(t, id, plan, time, d);
  }

  lemma DecisionSettles(t: Tables, id: Id, plan: seq<Id>, d: Decision)
    requires Newest(t.decisions, d) && d.task == id && d.asset in Undecided(t, id, plan)
    requires d.verdict.Accept? <==> d.asset in plan
    ensures Undecided(t.(decisions := t.decisions + [d]), id, plan) == Undecided(t, id, plan) - {d.asset}
  {
    DecisionMovesAsset(t.decisions, d);
  }

  /** The review is as ready as before, and decided as planned. */
  ghost predicate Decided(t: Tables, id: Id, plan: seq<Id>, time: int) {
    Ready(t, id, plan, time) && AcceptedAssets(t.decisions, id) == Elements(plan)
  }

  lemma {:induction false} DecideAll(t: Tables, id: Id, plan: seq<Id>, time: int) returns (statements: seq<Statement>)
    requires Ready(t, id, plan, time)
    ensures Decided(Run(t, statements), id, plan, time)
    ensures OnlyDecisions(statements, Linked(t.decisions))
    decreases Undecided(t, id, plan)
  {
    statements := [];
    if Undecided(t, id, plan) == {} {
      assert Run(t, statements) == t;
    } else {
      var asset :| asset in Undecided(t, id, plan);
      var one := DecideOne(t, id, plan, time, asset);
      var rest := DecideAll(Run(t, one), id, plan, time);
      RunTwice(t, one, rest);
      statements := one + rest;
    }
  }

  // -------------------------------------------------------------------- freezing

  /** The review is decided as planned, its first n places are filled, and their selections copy their assets. */
  ghost predicate Filled(t: Tables, id: Id, plan: seq<Id>, time: int, n: nat) {
    && Decided(t, id, plan, time)
    && (forall k :: 1 <= k <= n ==> k in DisplayOrders(t, id))
    && forall s :: s in SelectionsOf(t, id) && s.displayOrder <= n ==> Fresh(t, id, s)
  }

  /** The assets of a plan are different. */
  lemma PlanDistinct(t: Tables, id: Id, plan: seq<Id>, k: int, l: int)
    requires Plan(t, id, plan) && 0 <= k < |plan| && 0 <= l < |plan| && k != l
    ensures plan[k] != plan[l]
  {
  }

  /** The row of the asset may be replaced: same release and kind, and its object is free. */
  predicate Replaceable(t: Tables, asset: Id, row: Asset) {
    && asset in t.assets && AssetAdmitted(t.assets, asset, row)
    && row.kind == t.assets[asset].kind && row.release == t.assets[asset].release
  }

  lemma AssetStep(t: Tables, asset: Id, row: Asset)
    requires Valid(t) && Replaceable(t, asset, row)
    ensures Step(t, PutAsset(asset, row)) == t.(assets := t.assets[asset := row])
  {
  }

  lemma AssetKeepsValid(t: Tables, asset: Id, row: Asset)
    requires Valid(t) && Replaceable(t, asset, row)
    ensures Valid(t.(assets := t.assets[asset := row]))
  {
    AssetStep(t, asset, row);
    StepKeepsValid(t, PutAsset(asset, row));
  }

  lemma AssetKeepsReady(t: Tables, id: Id, plan: seq<Id>, time: int, asset: Id, row: Asset)
    requires Ready(t, id, plan, time) && Replaceable(t, asset, row)
    ensures Ready(t.(assets := t.assets[asset := row]), id, plan, time)
  {
    var next := t.(assets := t.assets[asset := row]);
    AssetKeepsValid(t, asset, row);
    assert SelectionsOf(next, id) == SelectionsOf(t, id);
    forall k | 0 <= k < |plan|
      ensures Master(next, id, plan[k])
    {
      assert Master(t, id, plan[k]);
    }
    forall s | s in SelectionsOf(next, id)
      ensures !Outdated(next, s)
    {
      assert !Outdated(t, s);
    }
  }

  /** The row of an asset that no filled place shows does not matter to these places. */
  lemma AssetKeepsFilled(t: Tables, id: Id, plan: seq<Id>, time: int, n: nat, asset: Id, row: Asset)
    requires Filled(t, id, plan, time, n) && Replaceable(t, asset, row)
    requires forall s :: s in SelectionsOf(t, id) && s.displayOrder <= n ==> s.asset != asset
    ensures Filled(t.(assets := t.assets[asset := row]), id, plan, time, n)
  {
    var next := t.(assets := t.assets[asset := row]);
    AssetKeepsReady(t, id, plan, time, asset, row);
    assert SelectionsOf(next, id) == SelectionsOf(t, id) && DisplayOrders(next, id) == DisplayOrders(t, id);
    forall s | s in SelectionsOf(next, id) && s.displayOrder <= n
      ensures Fresh(next, id, s)
    {
      assert Fresh(t, id, s);
    }
  }

  /** Filled places show other assets than the ones planned after them. */
  lemma FilledShowOthers(t: Tables, id: Id, plan: seq<Id>, time: int, n: nat)
    requires Filled(t, id, plan, time, n) && n < |plan|
    ensures forall s :: s in SelectionsOf(t, id) && s.displayOrder <= n ==> s.asset != plan[n]
  {
    forall s | s in SelectionsOf(t, id) && s.displayOrder <= n
      ensures s.asset != plan[n]
    {
      assert ShownAt(s, plan);
      PlanDistinct(t, id, plan, s.displayOrder - 1, n);
    }
  }

  /** The row of an asset as the selection copied it. */
  function Restored(a: Asset, s: Selection): Asset {
    a.(available := true, stored := Some(ObjectOf(s.source)), storage := Some(s.source), availableAt := Some(s.sourceAvailableAt))
  }

  lemma RestoredFits(t: Tables, id: Id, asset: Id, s: Selection)
    requires Valid(t) && id in t.tasks && Master(t, id, asset) && s.asset == asset && CopyChecks(s.source)
    requires ObjectFree(t.assets, asset, Some(ObjectOf(s.source)))
    ensures Replaceable(t, asset, Restored(t.assets[asset], s))
    ensures CopiesMaster(Restored(t.assets[asset], s), ReleaseOf(t, id), s)
  {
  }

  /** One more place is filled. */
  lemma OneMoreFilled(t: Tables, id: Id, plan: seq<Id>, time: int, n: nat, s: Selection)
    requires Filled(t, id, plan, time, n) && s in SelectionsOf(t, id) && s.displayOrder == n + 1 && Fresh(t, id, s)
    ensures Filled(t, id, plan, time, n + 1)
  {
    assert s.displayOrder in DisplayOrders(t, id);
    forall o | o in SelectionsOf(t, id) && o.displayOrder <= n + 1
      ensures Fresh(t, id, o)
    {
      if o.displayOrder == n + 1 { assert o != s ==> Apart(o, s); }
    }
  }

  /** Another asset that holds the object of a selection is moved to a new key. */
  lemma Vacate(t: Tables, id: Id, plan: seq<Id>, time: int, n: nat, s: Selection) returns (statements: seq<Statement>)
    requires Filled(t, id, plan, time, n) && n < |plan| && s in SelectionsOf(t, id) && s.displayOrder == n + 1
    ensures Supports(t, statements) && Run(t, statements).assets.Keys == t.assets.Keys
    ensures var next := Run(t, statements);
            && Filled(next, id, plan, time, n) && s in SelectionsOf(next, id)
            && ObjectFree(next.assets, plan[n], Some(ObjectOf(s.source)))
  {
    var wanted := Some(ObjectOf(s.source));
    statements := [];
    if other :| other in t.assets && other != plan[n] && t.assets[other].stored == wanted {
      var key := UnusedKey(t.assets, {s.source});
      var row := Relocated(t.assets[other], key);
      RelocationAdmitted(t.assets, other, key);
      assert AssetAdmitted(t.assets, other, t.assets[other]);
      HolderIsNotFilled(t, id, plan, time, n, s, other);
      statements := [PutAsset(other, row)];
      RunOne(t, PutAsset(other, row));
      AssetStep(t, other, row);
      AssetKeepsFilled(t, id, plan, time, n, other, row);
    }
  }

  /** No filled place shows the asset that holds the object of a later selection. */
  lemma HolderIsNotFilled(t: Tables, id: Id, plan: seq<Id>, time: int, n: nat, s: Selection, other: Id)
    requires Filled(t, id, plan, time, n) && s in SelectionsOf(t, id) && s.displayOrder == n + 1
    requires other in t.assets && t.assets[other].stored == Some(ObjectOf(s.source))
    ensures forall o :: o in SelectionsOf(t, id) && o.displayOrder <= n ==> o.asset != other
  {
    forall o | o in SelectionsOf(t, id) && o.displayOrder <= n
      ensures o.asset != other
    {
      assert Fresh(t, id, o) && AssetAdmitted(t.assets, o.asset, t.assets[o.asset]);
    }
  }

  /** A place that is filled already: its asset is put back as it was copied. */
  lemma RestoreOne(t: Tables, id: Id, plan: seq<Id>, time: int, n: nat, s: Selection)
    requires Filled(t, id, plan, time, n) && n < |plan| && s in SelectionsOf(t, id) && s.displayOrder == n + 1
    requires ObjectFree(t.assets, plan[n], Some(ObjectOf(s.source)))
    ensures Replaceable(t, plan[n], Restored(t.assets[plan[n]], s))
    ensures var next := t.(assets := t.assets[plan[n] := Restored(t.assets[plan[n]], s)]);
            Filled(next, id, plan, time, n + 1)
  {
    var row := Restored(t.assets[plan[n]], s);
    var next := t.(assets := t.assets[plan[n] := row]);
    assert ShownAt(s, plan) && SelectionSound(t, s) && Master(t, id, plan[n]);
    RestoredFits(t, id, plan[n], s);
    FilledShowOthers(t, id, plan, time, n);
    AssetKeepsFilled(t, id, plan, time, n, plan[n], row);
    assert s in SelectionsOf(next, id);
    OneMoreFilled(next, id, plan, time, n, s);
  }

  /** The selection of an accepted asset in place n + 1. */
  function NewSelection(t: Tables, id: Id, d: Decision, row: Id, n: nat, time: int, source: Storage): Selection
    requires id in t.tasks && (t.tasks[id].identity.scoringRun, d.asset) in t.rankings
  {
    var i := t.tasks[id].identity;
    Selection(row, id, i.scoringRun, d.id, d.revision, i.releaseVersion, d.asset, t.rankings[(i.scoringRun, d.asset)], n + 1,
              i.rankingManifest, source, time, time)
  }

  /** Selections of other places or reviews do not clash with it. */
  lemma NoClash(t: Tables, id: Id, plan: seq<Id>, time: int, n: nat, d: Decision, o: Selection)
    requires Ready(t, id, plan, time) && n < |plan| && n + 1 !in DisplayOrders(t, id)
    requires d in AcceptedRows(t.decisions, id) && d.asset == plan[n] && o in t.selections
    ensures o.decision != d.id
    ensures o.task == id ==> o.asset != d.asset && o.displayOrder != n + 1
  {
    assert SelectionSound(t, o);
    var e :| e in t.decisions && DecisionOf(e, o);
    if o.task == id {
      assert o in SelectionsOf(t, id) && ShownAt(o, plan) && o.displayOrder in DisplayOrders(t, id);
      PlanDistinct(t, id, plan, o.displayOrder - 1, n);
    }
    if o.decision == d.id { KeysIdentifyRows(t.decisions, d, e); }
  }

  lemma SelectionFits(t: Tables, id: Id, plan: seq<Id>, time: int, n: nat, d: Decision, row: Id, source: Storage)
    requires Ready(t, id, plan, time) && n < |plan| && n + 1 !in DisplayOrders(t, id)
    requires d in AcceptedRows(t.decisions, id) && d.asset == plan[n] && forall o :: o in t.selections ==> o.id != row
    requires CopyChecks(source) && Fresh(t, id, NewSelection(t, id, d, row, n, time, source))
    ensures var s := NewSelection(t, id, d, row, n, time, source);
            SelectionChecks(t, s) && SelectionGuard(t, s)
  {
    var s := NewSelection(t, id, d, row, n, time, source);
    assert DecisionSound(t, d) && TaskChecks(t.tasks[id]);
    RowPasses(t.decisions, d);
    forall o | o in t.selections
      ensures && o.id != s.id && o.decision != s.decision
              && (o.task == s.task ==> o.asset != s.asset && o.displayOrder != s.displayOrder)
    {
      NoClash(t, id, plan, time, n, d, o);
    }
  }

  lemma SelectionStep(t: Tables, s: Selection)
    requires SelectionChecks(t, s) && SelectionGuard(t, s)
    ensures Step(t, InsertSelection(s)) == t.(selections := t.selections + {s})
  {
  }

  lemma NewSelectionCurrent(t: Tables, s: Selection, d: Decision)
    requires WellFormed(t.decisions) && d in t.decisions && NoNewer(t.decisions, d) && d.id == s.decision
    ensures !Outdated(t, s)
  {
    forall e | e in t.decisions && e.id == s.decision
      ensures NoNewer(t.decisions, e)
    {
      KeysIdentifyRows(t.decisions, d, e);
    }
  }

  lemma SelectionsStayCurrent(t: Tables, id: Id, s: Selection, d: Decision)
    requires WellFormed(t.decisions) && d in t.decisions && NoNewer(t.decisions, d) && d.id == s.decision && s.task == id
    requires forall o :: o in SelectionsOf(t, id) ==> !Outdated(t, o)
    ensures var next := t.(selections := t.selections + {s});
            forall o :: o in SelectionsOf(next, id) ==> !Outdated(next, o)
  {
    var next := t.(selections := t.selections + {s});
    NewSelectionCurrent(next, s, d);
    forall o | o in SelectionsOf(next, id)
      ensures !Outdated(next, o)
    {
      assert o == s || (o in SelectionsOf(t, id) && !Outdated(t, o));
    }
  }

  /** The selection copies another object than those of the review. */
  predicate NewObject(t: Tables, id: Id, s: Selection) {
    forall o :: o in SelectionsOf(t, id) ==> ObjectOf(o.source) != ObjectOf(s.source)
  }

  lemma SelectionKeepsPlan(t: Tables, id: Id, plan: seq<Id>, time: int, s: Selection)
    requires Plan(t, id, plan) && FrozenAt(t, id, time) && s.task == id && ShownAt(s, plan) && s.frozenAt == time
    requires DistinctObjects(t, id) && NewObject(t, id, s)
    ensures var next := t.(selections := t.selections + {s});
            && Plan(next, id, plan) && FrozenAt(next, id, time) && DistinctObjects(next, id)
            && SelectionsOf(next, id) == SelectionsOf(t, id) + {s}
  {
    assert SelectionsOf(t.(selections := t.selections + {s}), id) == SelectionsOf(t, id) + {s};
  }

  lemma SelectionKeepsReady(t: Tables, id: Id, plan: seq<Id>, time: int, s: Selection, d: Decision)
    requires Ready(t, id, plan, time) && SelectionChecks(t, s) && SelectionGuard(t, s)
    requires s.task == id && ShownAt(s, plan) && s.frozenAt == time && NewObject(t, id, s)
    requires d in AcceptedRows(t.decisions, id) && d.id == s.decision
    ensures Ready(t.(selections := t.selections + {s}), id, plan, time)
  {
    SelectionKeepsValid(t, s);
    SelectionKeepsPlan(t, id, plan, time, s);
    SelectionsStayCurrent(t, id, s, d);
  }

  lemma SelectionKeepsFilled(t: Tables, id: Id, plan: seq<Id>, time: int, n: nat, s: Selection, d: Decision)
    requires Filled(t, id, plan, time, n) && SelectionChecks(t, s) && SelectionGuard(t, s)
    requires s.task == id && ShownAt(s, plan) && s.frozenAt == time && s.displayOrder == n + 1 && NewObject(t, id, s)
    requires d in AcceptedRows(t.decisions, id) && d.id == s.decision
    ensures Filled(t.(selections := t.selections + {s}), id, plan, time, n + 1)
  {
    var next := t.(selections := t.selections + {s});
    SelectionKeepsReady(t, id, plan, time, s, d);
    assert SelectionsOf(next, id) == SelectionsOf(t, id) + {s};
    forall k | 1 <= k <= n
      ensures k in DisplayOrders(next, id)
    {
      assert k in DisplayOrders(t, id);
      var o :| o in SelectionsOf(t, id) && o.displayOrder == k;
      assert o in SelectionsOf(next, id);
    }
    forall o | o in SelectionsOf(next, id) && o.displayOrder <= n
      ensures Fresh(next, id, o)
    {
      assert o in SelectionsOf(t, id) && Fresh(t, id, o);
    }
    OneMoreFilled(next, id, plan, time, n, s);
  }

  /** An object that no asset and no selection of the review names. */
  lemma NewSource(t: Tables, id: Id) returns (source: Storage)
    ensures CopyChecks(source) && forall asset :: ObjectFree(t.assets, asset, Some(ObjectOf(source)))
    ensures forall o :: o in SelectionsOf(t, id) ==> ObjectOf(o.source) != ObjectOf(source)
  {
    var copies := set o | o in SelectionsOf(t, id) :: o.source;
    var key := UnusedKey(t.assets, copies);
    source := StoredUnder(key);
    NewStorageChecks(key);
    forall o | o in SelectionsOf(t, id)
      ensures ObjectOf(o.source) != ObjectOf(source)
    {
      assert o.source in copies;
    }
  }

  lemma UnusedSelectionId(t: Tables) returns (row: Id)
    ensures forall o :: o in t.selections ==> o.id != row
  {
    var ids := set o | o in t.selections :: o.id;
    row := Unused(ids);
    forall o | o in t.selections
      ensures o.id != row
    {
      assert o.id in ids;
    }
  }

  /** An empty place gets the selection of its planned asset. */
  lemma SelectOne(t: Tables, id: Id, plan: seq<Id>, time: int, n: nat) returns (row: Asset, s: Selection)
    requires Filled(t, id, plan, time, n) && n < |plan| && n + 1 !in DisplayOrders(t, id)
    ensures Replaceable(t, plan[n], row)
    ensures var supported := t.(assets := t.assets[plan[n] := row]);
            && SelectionChecks(supported, s) && SelectionGuard(supported, s)
            && Filled(supported.(selections := supported.selections + {s}), id, plan, time, n + 1)
  {
    assert plan[n] in AcceptedAssets(t.decisions, id);
    var d :| d in AcceptedRows(t.decisions, id) && d.asset == plan[n];
    var source := NewSource(t, id);
    var key := UnusedSelectionId(t);
    s := NewSelection(t, id, d, key, n, time, source);
    row := Restored(t.assets[plan[n]], s);
    assert Master(t, id, plan[n]);
    RestoredFits(t, id, plan[n], s);
    FilledShowOthers(t, id, plan, time, n);
    AssetKeepsFilled(t, id, plan, time, n, plan[n], row);
    SelectSupported(t.(assets := t.assets[plan[n] := row]), id, plan, time, n, d, key, source);
  }

  lemma SelectSupported(t: Tables, id: Id, plan: seq<Id>, time: int, n: nat, d: Decision, row: Id, source: Storage)
    requires Filled(t, id, plan, time, n) && n < |plan| && n + 1 !in DisplayOrders(t, id)
    requires d in AcceptedRows(t.decisions, id) && d.asset == plan[n] && forall o :: o in t.selections ==> o.id != row
    requires CopyChecks(source) && Fresh(t, id, NewSelection(t, id, d, row, n, time, source))
    requires forall o :: o in SelectionsOf(t, id) ==> ObjectOf(o.source) != ObjectOf(source)
    ensures var s := NewSelection(t, id, d, row, n, time, source);
            && SelectionChecks(t, s) && SelectionGuard(t, s)
            && Filled(t.(selections := t.selections + {s}), id, plan, time, n + 1)
  {
    SelectionFits(t, id, plan, time, n, d, row, source);
    SelectionKeepsFilled(t, id, plan, time, n, NewSelection(t, id, d, row, n, time, source), d);
  }

  /** Neither a ranking nor a decision, and no asset changes release or kind. */
  ghost predicate Supports(t: Tables, statements: seq<Statement>) {
    forall s :: s in statements ==>
      && !s.InsertRanking? && !s.InsertDecision?
      && (s.PutAsset? ==> s.id in t.assets && s.row.kind == t.assets[s.id].kind && s.row.release == t.assets[s.id].release)
  }

  lemma {:induction false} SupportedRun(t: Tables, statements: seq<Statement>)
    requires Supports(t, statements)
    ensures SameMasters(t, Run(t, statements))
  {
    if statements != [] {
      var before, s := statements[..|statements| - 1], statements[|statements| - 1];
      SupportedRun(t, before);
      assert s in statements;
      StepKeepsMasters(t, Run(t, before), s, 0);
    }
  }

  lemma SupportsTwice(t: Tables, first: seq<Statement>, second: seq<Statement>)
    requires Supports(t, first) && Supports(Run(t, first), second) && Run(t, first).assets.Keys == t.assets.Keys
    ensures Supports(t, first + second)
  {
    SupportedRun(t, first);
  }


  lemma RefillOne(t: Tables, id: Id, plan: seq<Id>, time: int, n: nat, s: Selection) returns (statements: seq<Statement>)
    requires Filled(t, id, plan, time, n) && n < |plan| && s in SelectionsOf(t, id) && s.displayOrder == n + 1
    ensures Supports(t, statements) && Run(t, statements).assets.Keys == t.assets.Keys
    ensures Filled(Run(t, statements), id, plan, time, n + 1)
  {
    var vacate := Vacate(t, id, plan, time, n, s);
    var restore := RestoreRuns(Run(t, vacate), id, plan, time, n, s);
    RunTwice(t, vacate, restore);
    SupportsTwice(t, vacate, restore);
    statements := vacate + restore;
  }

  lemma RestoreRuns(t: Tables, id: Id, plan: seq<Id>, time: int, n: nat, s: Selection) returns (statements: seq<Statement>)
    requires Filled(t, id, plan, time, n) && n < |plan| && s in SelectionsOf(t, id) && s.displayOrder == n + 1
    requires ObjectFree(t.assets, plan[n], Some(ObjectOf(s.source)))
    ensures Supports(t, statements) && Run(t, statements).assets.Keys == t.assets.Keys
    ensures Filled(Run(t, statements), id, plan, time, n + 1)
  {
    assert Master(t, id, plan[n]);
    var row := Restored(t.assets[plan[n]], s);
    statements := [PutAsset(plan[n], row)];
    RestoreOne(t, id, plan, time, n, s);
    AssetStep(t, plan[n], row);
    RunOne(t, PutAsset(plan[n], row));
  }

  lemma FillEmpty(t: Tables, id: Id, plan: seq<Id>, time: int, n: nat) returns (statements: seq<Statement>)
    requires Filled(t, id, plan, time, n) && n < |plan| && n + 1 !in DisplayOrders(t, id)
    ensures Supports(t, statements) && Run(t, statements).assets.Keys == t.assets.Keys
    ensures Filled(Run(t, statements), id, plan, time, n + 1)
  {
    var row, s := SelectOne(t, id, plan, time, n);
    var mid := t.(assets := t.assets[plan[n] := row]);
    statements := [PutAsset(plan[n], row)] + [InsertSelection(s)];
    AssetStep(t, plan[n], row);
    SelectionStep(mid, s);
    RunOne(t, PutAsset(plan[n], row));
    RunOne(mid, InsertSelection(s));
    RunTwice(t, [PutAsset(plan[n], row)], [InsertSelection(s)]);
  }

  lemma {:induction false} FillAll(t: Tables, id: Id, plan: seq<Id>, time: int, n: nat) returns (statements: seq<Statement>)
    requires Filled(t, id, plan, time, n) && n <= |plan|
    ensures Supports(t, statements) && Run(t, statements).assets.Keys == t.assets.Keys
    ensures Filled(Run(t, statements), id, plan, time, |plan|)
    decreases |plan| - n
  {
    statements := [];
    if n < |plan| {
      var one;
      if s :| s in SelectionsOf(t, id) && s.displayOrder == n + 1 {
        one := RefillOne(t, id, plan, time, n, s);
      } else {
        one := FillEmpty(t, id, plan, time, n);
      }
      var rest := FillAll(Run(t, one), id, plan, time, n + 1);
      RunTwice(t, one, rest);
      SupportsTwice(t, one, rest);
      statements := one + rest;
    }
  }

  // -------------------------------------------------------------------- completing

  lemma PlacesAreUpTo(t: Tables, id: Id, plan: seq<Id>, time: int)
    requires Filled(t, id, plan, time, |plan|)
    ensures DisplayOrders(t, id) == UpTo(|plan|) && |SelectionsOf(t, id)| == |plan|
  {
    forall s | s in SelectionsOf(t, id)
      ensures 1 <= s.displayOrder <= |plan|
    {
      assert ShownAt(s, plan);
    }
    forall s, o | s in SelectionsOf(t, id) && o in SelectionsOf(t, id) && s.displayOrder == o.displayOrder
      ensures s == o
    {
      assert s != o ==> Apart(s, o);
    }
    InjectiveImageSize(SelectionsOf(t, id), DisplayOrders(t, id), (s: Selection) => s.displayOrder);
    assert DisplayOrders(t, id) == UpTo(|plan|);
  }

  lemma NumberedFrom(rows: set<Selection>, n: nat, first: Selection, last: Selection)
    requires |rows| == n && forall s :: s in rows ==> 1 <= s.displayOrder <= n
    requires first in rows && first.displayOrder == 1 && last in rows && last.displayOrder == n
    ensures Numbered(rows, Some(n))
  {
  }

  lemma FilledIsNumbered(t: Tables, id: Id, plan: seq<Id>, time: int)
    requires Filled(t, id, plan, time, |plan|)
    ensures Numbered(SelectionsOf(t, id), Some(|plan|))
  {
    PlacesAreUpTo(t, id, plan, time);
    assert 1 in DisplayOrders(t, id) && |plan| in DisplayOrders(t, id);
    var first :| first in SelectionsOf(t, id) && first.displayOrder == 1;
    var last :| last in SelectionsOf(t, id) && last.displayOrder == |plan|;
    forall s | s in SelectionsOf(t, id)
      ensures 1 <= s.displayOrder <= |plan|
    {
      assert ShownAt(s, plan);
    }
    NumberedFrom(SelectionsOf(t, id), |plan|, first, last);
  }

  lemma FilledRowSound(t: Tables, id: Id, plan: seq<Id>, time: int, now: Task, s: Selection, d: Decision)
    requires Filled(t, id, plan, time, |plan|) && now.completedAt == Some(time)
    requires s in SelectionsOf(t, id) && d in t.decisions && Joins(t, s, d)
    ensures JoinedRowSound(t, id, t.tasks[id], now, s, d)
  {
    assert SelectionSound(t, s) && ShownAt(s, plan) && Fresh(t, id, s) && !Outdated(t, s);
    var e :| e in t.decisions && DecisionOf(e, s);
    KeysIdentifyRows(t.decisions, d, e);
  }

  lemma FilledCovers(t: Tables, id: Id, plan: seq<Id>, time: int, d: Decision)
    requires Filled(t, id, plan, time, |plan|) && d in AcceptedRows(t.decisions, id)
    ensures Covered(SelectionsOf(t, id), d)
  {
    assert d.asset in AcceptedAssets(t.decisions, id);
    var k :| 0 <= k < |plan| && plan[k] == d.asset;
    assert k + 1 in DisplayOrders(t, id);
    var s :| s in SelectionsOf(t, id) && s.displayOrder == k + 1;
    assert ShownAt(s, plan) && SelectionSound(t, s) && !Outdated(t, s);
    var e :| e in t.decisions && DecisionOf(e, s);
    assert SameChain(d, e);
    KeysIdentifyRows(t.decisions, d, e);
  }

  lemma FilledByRank(t: Tables, id: Id, plan: seq<Id>, time: int)
    requires Filled(t, id, plan, time, |plan|)
    ensures OrderedByRank(SelectionsOf(t, id))
  {
    forall s, o | s in SelectionsOf(t, id) && o in SelectionsOf(t, id) && s.displayOrder > o.displayOrder
      ensures s.rank >= o.rank
    {
      assert SelectionSound(t, s) && SelectionSound(t, o) && ShownAt(s, plan) && ShownAt(o, plan);
    }
  }

  lemma FilledPassesGuard(t: Tables, id: Id, plan: seq<Id>, time: int, now: Task)
    requires Filled(t, id, plan, time, |plan|) && now.completedAt == Some(time) && now.desired == Some(|plan|)
    requires CurrentIn(t.releases, t.versions, t.tasks[id].identity.releaseVersion, Reviewing)
    ensures CompletionGuard(t, id, t.tasks[id], now)
  {
    FilledIsNumbered(t, id, plan, time);
    FilledByRank(t, id, plan, time);
    forall s, d | s in SelectionsOf(t, id) && d in t.decisions && Joins(t, s, d)
      ensures JoinedRowSound(t, id, t.tasks[id], now, s, d)
    {
      FilledRowSound(t, id, plan, time, now, s, d);
    }
    forall d | d in AcceptedRows(t.decisions, id)
      ensures Covered(SelectionsOf(t, id), d)
    {
      FilledCovers(t, id, plan, time, d);
    }
  }

  /** The review with a target of at least n. */
  function Grown(task: Task, n: nat): Task
    requires task.desired.Some?
  {
    if task.desired.value < n then task.(desired := Some(n), lockVersion := task.lockVersion + 1) else task
  }

  function Done(task: Task, n: nat, time: int): Task {
    task.(state := Completed, desired := Some(n), lockVersion := task.lockVersion + 1,
          completedBy := Some(task.identity.createdBy), completedAt := Some(time))
  }

  lemma PlanSize(t: Tables, id: Id, plan: seq<Id>, time: int)
    requires Filled(t, id, plan, time, |plan|)
    ensures |AcceptedRows(t.decisions, id)| == |plan|
  {
    AcceptedRowsBijectWithAssets(t.decisions, id);
    forall k, l | 0 <= k < l < |plan|
      ensures plan[k] != plan[l]
    {
      PlanDistinct(t, id, plan, k, l);
    }
    ElementsCount(plan);
  }

  lemma DoneAdmitted(t: Tables, id: Id, plan: seq<Id>, time: int)
    requires Filled(t, id, plan, time, |plan|) && t.tasks[id].desired.Some? && t.tasks[id].desired.value >= |plan|
    requires CurrentIn(t.releases, t.versions, t.tasks[id].identity.releaseVersion, Reviewing)
    ensures TaskUpdateAdmitted(t, id, Done(t.tasks[id], |plan|, time))
  {
    assert TaskChecks(t.tasks[id]);
    PlanSize(t, id, plan, time);
    FilledPassesGuard(t, id, plan, time, Done(t.tasks[id], |plan|, time));
  }

  lemma GrowAdmitted(t: Tables, id: Id, plan: seq<Id>, time: int)
    requires Ready(t, id, plan, time) && t.tasks[id].desired.Some? && t.tasks[id].desired.value < |plan|
    ensures TaskUpdateAdmitted(t, id, Grown(t.tasks[id], |plan|))
  {
    assert TaskChecks(t.tasks[id]);
  }

  /** Releases and the target may move under a filled review. */
  lemma FilledFrame(t: Tables, next: Tables, id: Id, plan: seq<Id>, time: int, n: nat)
    requires Filled(t, id, plan, time, n) && Valid(next)
    requires next == t.(tasks := next.tasks, releases := next.releases)
    requires id in next.tasks && next.tasks[id].identity == t.tasks[id].identity && next.tasks[id].state.Open?
    ensures Filled(next, id, plan, time, n)
  {
    assert SelectionsOf(next, id) == SelectionsOf(t, id) && DisplayOrders(next, id) == DisplayOrders(t, id);
    forall k | 0 <= k < |plan|
      ensures Master(next, id, plan[k])
    {
      assert Master(t, id, plan[k]);
    }
    forall s | s in SelectionsOf(next, id)
      ensures !Outdated(next, s)
      ensures s.displayOrder <= n ==> Fresh(next, id, s)
    {
      assert !Outdated(t, s) && (s.displayOrder <= n ==> Fresh(t, id, s));
    }
  }

  lemma ReleaseStep(t: Tables, id: Id, row: Release)
    ensures Step(t, PutRelease(id, row)) == t.(releases := t.releases[id := row])
  {
  }

  /** The application puts the release into review with the version of the task. */
  lemma OpenRelease(t: Tables, id: Id, plan: seq<Id>, time: int, n: nat) returns (s: Statement)
    requires Filled(t, id, plan, time, n)
    ensures s.PutRelease?
    ensures var next := Step(t, s);
            && Filled(next, id, plan, time, n) && next.tasks == t.tasks
            && CurrentIn(next.releases, next.versions, next.tasks[id].identity.releaseVersion, Reviewing)
  {
    var version := t.versions[t.tasks[id].identity.releaseVersion];
    var row := Release(Reviewing, version.no, 1);
    s := PutRelease(version.release, row);
    ReleaseStep(t, version.release, row);
    StepKeepsValid(t, s);
    FilledFrame(t, Step(t, s), id, plan, time, n);
  }

  /** The target grows to the plan when it is smaller. */
  lemma GrowTarget(t: Tables, id: Id, plan: seq<Id>, time: int) returns (statements: seq<Statement>)
    requires Filled(t, id, plan, time, |plan|)
    requires CurrentIn(t.releases, t.versions, t.tasks[id].identity.releaseVersion, Reviewing)
    ensures Supports(t, statements)
    ensures var next := Run(t, statements);
            && Filled(next, id, plan, time, |plan|)
            && next.tasks[id].desired.Some? && next.tasks[id].desired.value >= |plan|
            && CurrentIn(next.releases, next.versions, next.tasks[id].identity.releaseVersion, Reviewing)
  {
    assert TaskChecks(t.tasks[id]);
    statements := [];
    if t.tasks[id].desired.value < |plan| {
      var grown := Grown(t.tasks[id], |plan|);
      statements := [UpdateTask(id, grown)];
      GrowAdmitted(t, id, plan, time);
      RunOne(t, UpdateTask(id, grown));
      UpdateEffect(t, id, grown);
      StepKeepsValid(t, UpdateTask(id, grown));
      FilledFrame(t, Step(t, UpdateTask(id, grown)), id, plan, time, |plan|);
    }
  }

  /** With its target and its release in place, a filled review completes at once. */
  lemma CompleteNow(t: Tables, id: Id, plan: seq<Id>, time: int) returns (s: Statement)
    requires Filled(t, id, plan, time, |plan|) && t.tasks[id].desired.Some? && t.tasks[id].desired.value >= |plan|
    requires CurrentIn(t.releases, t.versions, t.tasks[id].identity.releaseVersion, Reviewing)
    ensures s.UpdateTask? && id in Run(t, [s]).tasks && Run(t, [s]).tasks[id].state.Completed?
  {
    var now := Done(t.tasks[id], |plan|, time);
    s := UpdateTask(id, now);
    DoneAdmitted(t, id, plan, time);
    UpdateEffect(t, id, now);
    RunOne(t, s);
  }

  lemma GrowAndComplete(t: Tables, id: Id, plan: seq<Id>, time: int) returns (statements: seq<Statement>)
    requires Filled(t, id, plan, time, |plan|)
    requires CurrentIn(t.releases, t.versions, t.tasks[id].identity.releaseVersion, Reviewing)
    ensures Supports(t, statements)
    ensures id in Run(t, statements).tasks && Run(t, statements).tasks[id].state.Completed?
  {
    var grow := GrowTarget(t, id, plan, time);
    var last := CompleteNow(Run(t, grow), id, plan, time);
    RunTwice(t, grow, [last]);
    statements := grow + [last];
  }

  /** A filled review can be completed. */
  lemma FinishReview(t: Tables, id: Id, plan: seq<Id>, time: int) returns (statements: seq<Statement>)
    requires Filled(t, id, plan, time, |plan|)
    ensures Supports(t, statements)
    ensures id in Run(t, statements).tasks && Run(t, statements).tasks[id].state.Completed?
  {
    var opening := OpenRelease(t, id, plan, time, |plan|);
    RunOne(t, opening);
    assert Step(t, opening).assets == t.assets;
    var rest := GrowAndComplete(Step(t, opening), id, plan, time);
    RunTwice(t, [opening], rest);
    statements := [opening] + rest;
  }

  lemma FillAndFinish(t: Tables, id: Id, plan: seq<Id>, time: int) returns (statements: seq<Statement>)
    requires Decided(t, id, plan, time)
    ensures Supports(t, statements)
    ensures id in Run(t, statements).tasks && Run(t, statements).tasks[id].state.Completed?
  {
    assert Filled(t, id, plan, time, 0) by {
      forall s | s in SelectionsOf(t, id)
        ensures s.displayOrder > 0
      {
        assert ShownAt(s, plan);
      }
    }
    var fill := FillAll(t, id, plan, time, 0);
    var finish := FinishReview(Run(t, fill), id, plan, time);
    RunTwice(t, fill, finish);
    SupportsTwice(t, fill, finish);
    statements := fill + finish;
  }

  /** What the run inserts into the decisions leaves no link column NULL. */
  ghost predicate LinksSet(statements: seq<Statement>) {
    forall s :: s in statements && s.InsertDecision? ==> LinkColumnsSet(s.decision)
  }

  lemma {:induction false} DecisionsKeepAssets(t: Tables, statements: seq<Statement>, linked: bool)
    requires OnlyDecisions(statements, linked)
    ensures Run(t, statements).assets == t.assets
  {
    if statements != [] {
      var before, s := statements[..|statements| - 1], statements[|statements| - 1];
      DecisionsKeepAssets(t, before, linked);
      assert s in statements;
    }
  }

  /** The run: decide as planned, fill the places, complete. */
  lemma CompleteBySomeRun(t: Tables, id: Id) returns (statements: seq<Statement>)
    requires Valid(t) && id in t.tasks && t.tasks[id].state.Open? && CanComplete(t, id)
    ensures Steady(t, statements, t.tasks[id].identity.scoringRun) && (Linked(t.decisions) ==> LinksSet(statements))
    ensures id in Run(t, statements).tasks && Run(t, statements).tasks[id].state.Completed?
  {
    var time :| FrozenAt(t, id, time);
    var plan :| Plan(t, id, plan);
    var decisions := DecideAll(t, id, plan, time);
    DecisionsKeepAssets(t, decisions, Linked(t.decisions));
    var rest := FillAndFinish(Run(t, decisions), id, plan, time);
    RunTwice(t, decisions, rest);
    statements := decisions + rest;
  }

  /**
    Some steady run completes an open review exactly when its selections are current, of one
    time, of different stored objects, and extend to a display list in rank order.
  */
  lemma CompletableExactly(t: Tables, id: Id)
    requires Valid(t) && id in t.tasks && t.tasks[id].state.Open?
    ensures CanComplete(t, id) <==>
            exists statements :: Steady(t, statements, t.tasks[id].identity.scoringRun)
              && id in Run(t, statements).tasks && Run(t, statements).tasks[id].state.Completed?
  {
    if CanComplete(t, id) {
      var statements := CompleteBySomeRun(t, id);
    }
    if statements :| Steady(t, statements, t.tasks[id].identity.scoringRun)
                     && id in Run(t, statements).tasks && Run(t, statements).tasks[id].state.Completed? {
      CompletedCould(t, statements, id);
    }
  }

  /** In a linked log the run need not leave a link column NULL, so that the chains stay linked. */
  lemma CompletableLinked(t: Tables, id: Id)
    requires Valid(t) && id in t.tasks && t.tasks[id].state.Open? && CanComplete(t, id) && Linked(t.decisions)
    ensures exists statements :: Steady(t, statements, t.tasks[id].identity.scoringRun) && LinksSet(statements)
              && id in Run(t, statements).tasks && Run(t, statements).tasks[id].state.Completed?
              && Linked(Run(t, statements).decisions)
  {
    var statements := CompleteBySomeRun(t, id);
    LinksKeepLinked(t, statements);
  }

  lemma {:induction false} LinksKeepLinked(t: Tables, statements: seq<Statement>)
    requires Valid(t) && Linked(t.decisions) && LinksSet(statements)
    ensures Linked(Run(t, statements).decisions)
  {
    if statements != [] {
      var before, s := statements[..|statements| - 1], statements[|statements| - 1];
      LinksKeepLinked(t, before);
      RunKeepsValid(t, before);
      assert s in statements;
      StepKeepsLinked(Run(t, before), s);
    }
  }

  lemma StepKeepsLinked(t: Tables, s: Statement)
    requires Valid(t) && Linked(t.decisions) && (s.InsertDecision? ==> LinkColumnsSet(s.decision))
    ensures Linked(Step(t, s).decisions)
  {
    if s.InsertDecision? && DecisionAdmitted(t, s.decision) {
      InsertKeepsLinked(t.decisions, s.decision);
    } else {
      assert Step(t, s).decisions == t.decisions;
    }
  }
}
