/**
  Scoring runs, scores and rankings: the completion and freeze triggers of migration 0008, as
  migration 0042 extends them, over the keys of migration 0004, and the validation loop of the
  backfill of migration 0008.
*/
module Scoring {
  import opened Basics

  datatype RunState = Running | Completed

  datatype ScoreState = Pending | Processing | RetryWait | Scored | FlaggedBlank | FlaggedCorrupt | DeadLetter | Skipped

  datatype Versions = Versions(scorer: string, pillow: string, configSha256: string)

  datatype ScoringRun = ScoringRun(
    state: RunState, assetCount: int, versions: Versions, completedAt: Option<int>, rankingManifest: Option<string>)

  /** How many of the measurement columns are set. */
  datatype Measured = Complete | Partial | Absent

  /** `detailIsObject`: the JSON of signal_detail is an object; likewise for the explanation of a ranking. */
  datatype Score = Score(
    run: Id, asset: Id, state: ScoreState, aggregate: Option<int>, measured: Measured, versions: Versions,
    completedAt: Option<int>, detailIsObject: bool)

  datatype Ranking = Ranking(
    run: Id, score: Id, asset: Id, rank: int, aggregate: int, versions: Versions, explanationIsObject: bool)

  datatype Tables = Tables(runs: map<Id, ScoringRun>, scores: map<Id, Score>, rankings: map<Id, Ranking>)

  const MANUAL_SCORER := "manual-review-v1"

  predicate Terminal(s: ScoreState) {
    s in {Scored, FlaggedBlank, FlaggedCorrupt, DeadLetter, Skipped}
  }

  predicate Rankable(s: ScoreState) {
    s in {Scored, FlaggedBlank, FlaggedCorrupt, Skipped}
  }

  /** The rankable states before migration 0042. */
  predicate Judged(s: ScoreState) {
    s in {Scored, FlaggedBlank, FlaggedCorrupt}
  }

  // -------------------------------------------------------------------- constraints and triggers

  /** The CHECK constraints of migration 0004. */
  predicate BaseRunChecks(r: ScoringRun) {
    r.assetCount > 0 && (r.state.Completed? <==> r.completedAt.Some?)
  }

  /** Those of migration 0008, which adds the ranking manifest. */
  predicate RunChecks(r: ScoringRun) {
    && BaseRunChecks(r)
    && (r.state.Completed? <==> r.rankingManifest.Some?)
    && (r.rankingManifest.Some? ==> |r.rankingManifest.value| == 64)
  }

  predicate ScoreChecks(s: Score) {
    && (Terminal(s.state) ==> s.completedAt.Some?)
    && (s.state in {Scored, FlaggedBlank} ==> s.aggregate.Some? && s.measured.Complete?)
    // the CHECK is unknown, and so passes, for a NULL aggregate
    && (s.state.Skipped? ==> s.versions.scorer == MANUAL_SCORER && s.aggregate in {None, Some(0)} && s.measured.Absent?)
    && (s.aggregate.Some? ==> 0 <= s.aggregate.value <= 1000000)
  }

  predicate RankingChecks(r: Ranking) {
    r.rank > 0 && 0 <= r.aggregate <= 1000000
  }

  function RankingsOf(t: Tables, run: Id): set<Id> {
    set r | r in t.rankings && t.rankings[r].run == run
  }

  function ScoresOf(t: Tables, run: Id): set<Id> {
    set s | s in t.scores && t.scores[s].run == run
  }

  predicate RunCompleted(t: Tables, run: Id) {
    run in t.runs && t.runs[run].state.Completed?
  }

  /** The ranking names a score of its own run and asset. */
  predicate Joined(t: Tables, r: Ranking) {
    r.score in t.scores && t.scores[r.score].run == r.run && t.scores[r.score].asset == r.asset
  }

  /** ... which is terminal and agrees with it and the run. */
  predicate Agrees(s: Score, r: Ranking, run: ScoringRun) {
    && Rankable(s.state) && s.completedAt.Some? && s.aggregate == Some(r.aggregate)
    && s.versions == run.versions && r.versions == run.versions
  }

  predicate Paired(t: Tables, r: Ranking, run: ScoringRun) {
    Joined(t, r) && Agrees(t.scores[r.score], r, run)
  }

  /** scoring_runs_validate_completion: count, min, max and the left join. */
  predicate CompletionGuard(t: Tables, id: Id, run: ScoringRun) {
    var rows := RankingsOf(t, id);
    && |rows| == run.assetCount
    && (rows != {} ==> (exists r :: r in rows && t.rankings[r].rank == 1) && forall r :: r in rows ==> t.rankings[r].rank >= 1)
    && (rows != {} ==> (exists r :: r in rows && t.rankings[r].rank == run.assetCount)
                       && forall r :: r in rows ==> t.rankings[r].rank <= run.assetCount)
    && forall r :: r in rows ==> Paired(t, t.rankings[r], run)
  }

  datatype Statement =
    | InsertRun(id: Id, run: ScoringRun)
    | UpdateRun(id: Id, run: ScoringRun)
    | DeleteRun(id: Id)
    | InsertScore(id: Id, score: Score)
    | UpdateScore(id: Id, score: Score)
    | DeleteScore(id: Id)
    | InsertRanking(id: Id, ranking: Ranking)
    /** UPDATE or DELETE on asset_rankings. */
    | MutateRanking

  predicate RunUpdateAdmitted(t: Tables, id: Id, run: ScoringRun) {
    && id in t.runs && RunChecks(run)
    && !t.runs[id].state.Completed?
    && (run.state.Completed? ==> CompletionGuard(t, id, run))
  }

  predicate ScoreKeyFree(t: Tables, id: Id, s: Score) {
    forall o :: o in t.scores && o != id ==> !(t.scores[o].run == s.run && t.scores[o].asset == s.asset)
  }

  predicate ScoreInsertAdmitted(t: Tables, id: Id, s: Score) {
    id !in t.scores && ScoreChecks(s) && ScoreKeyFree(t, id, s) && s.run in t.runs && !RunCompleted(t, s.run)
  }

  /** The trigger looks at OLD only. */
  predicate ScoreMutable(t: Tables, id: Id) {
    id in t.scores && !Terminal(t.scores[id].state) && !RunCompleted(t, t.scores[id].run)
  }

  predicate ScoreUpdateAdmitted(t: Tables, id: Id, s: Score) {
    ScoreMutable(t, id) && ScoreChecks(s) && ScoreKeyFree(t, id, s) && s.run in t.runs
  }

  predicate RankingAdmitted(t: Tables, id: Id, r: Ranking) {
    && id !in t.rankings && RankingChecks(r)
    && r.run in t.runs && r.score in t.scores && !RunCompleted(t, r.run)
    && forall o :: o in t.rankings ==>
         && t.rankings[o].score != r.score
         && (t.rankings[o].run == r.run ==> t.rankings[o].asset != r.asset && t.rankings[o].rank != r.rank)
  }

  /** None when the statement aborts. */
  function Execute(t: Tables, s: Statement): Option<Tables> {
    match s
    case InsertRun(id, run) =>
      // rows start running: the source's INSERTs do, no trigger checks it
      if id !in t.runs && RunChecks(run) && run.state.Running? then Some(t.(runs := t.runs[id := run])) else None
    case UpdateRun(id, run) =>
      if RunUpdateAdmitted(t, id, run) then Some(t.(runs := t.runs[id := run])) else None
    case DeleteRun(id) =>
      if id in t.runs && !RunCompleted(t, id) && ScoresOf(t, id) == {} && RankingsOf(t, id) == {}
      then Some(t.(runs := t.runs - {id})) else None
    case InsertScore(id, score) =>
      if ScoreInsertAdmitted(t, id, score) then Some(t.(scores := t.scores[id := score])) else None
    case UpdateScore(id, score) =>
      if ScoreUpdateAdmitted(t, id, score) then Some(t.(scores := t.scores[id := score])) else None
    case DeleteScore(id) =>
      if ScoreMutable(t, id) && forall r :: r in t.rankings ==> t.rankings[r].score != id
      then Some(t.(scores := t.scores - {id})) else None
    case InsertRanking(id, ranking) =>
      if RankingAdmitted(t, id, ranking) then Some(t.(rankings := t.rankings[id := ranking])) else None
    case MutateRanking => None
  }

  const NOTHING := Tables(map[], map[], map[])

  function Step(t: Tables, s: Statement): Tables {
    var next := Execute(t, s);
    if next.Some? then next.value else t
  }

  function Run(t: Tables, statements: seq<Statement>): Tables {
    if statements == [] then t else Step(Run(t, statements[..|statements| - 1]), statements[|statements| - 1])
  }

  // -------------------------------------------------------------------- the invariant

  function Ranks(t: Tables, run: Id): set<int> {
    set r | r in RankingsOf(t, run) :: t.rankings[r].rank
  }

  function RankedAssets(t: Tables, run: Id): set<Id> {
    set r | r in RankingsOf(t, run) :: t.rankings[r].asset
  }

  /** One ranking for each rank 1..asset_count, each of another asset, each paired with a terminal score. */
  ghost predicate RankSnapshot(t: Tables, run: Id)
    requires run in t.runs
  {
    && Ranks(t, run) == UpTo(|RankingsOf(t, run)|)
    && |RankingsOf(t, run)| == |RankedAssets(t, run)| == t.runs[run].assetCount
    && forall r :: r in RankingsOf(t, run) ==> Paired(t, t.rankings[r], t.runs[run])
  }

  predicate RankKeys(rankings: map<Id, Ranking>) {
    forall r, o :: r in rankings && o in rankings && r != o && rankings[r].run == rankings[o].run ==>
      rankings[r].rank != rankings[o].rank && rankings[r].asset != rankings[o].asset
  }

  ghost predicate Valid(t: Tables) {
    && RankKeys(t.rankings)
    && (forall id :: RunCompleted(t, id) ==> RankSnapshot(t, id))
  }

  lemma KeysCountRows(t: Tables, run: Id)
    requires RankKeys(t.rankings)
    ensures |Ranks(t, run)| == |RankedAssets(t, run)| == |RankingsOf(t, run)|
  {
    InjectiveImageSize(RankingsOf(t, run), Ranks(t, run), r requires r in t.rankings => t.rankings[r].rank);
    InjectiveImageSize(RankingsOf(t, run), RankedAssets(t, run), r requires r in t.rankings => t.rankings[r].asset);
  }

  /** Count, minimum and maximum with the unique keys make the ranks a permutation of 1..asset_count. */
  lemma CompletionRanks(t: Tables, id: Id, run: ScoringRun)
    requires RankKeys(t.rankings) && CompletionGuard(t, id, run)
    ensures RankSnapshot(t.(runs := t.runs[id := run]), id)
  {
    var rows, next := RankingsOf(t, id), t.(runs := t.runs[id := run]);
    KeysCountRows(t, id);
    forall rank | rank in Ranks(t, id)
      ensures 1 <= rank <= |rows|
    {
    }
    CountAndBoundsFillTheRange(Ranks(t, id), |rows|);
    SameRankings(t, next, id);
    assert forall r :: r in rows ==> Paired(t, t.rankings[r], run);
  }

  lemma SameRankings(t: Tables, next: Tables, id: Id)
    requires next.rankings == t.rankings
    ensures RankingsOf(next, id) == RankingsOf(t, id)
    ensures Ranks(next, id) == Ranks(t, id) && RankedAssets(next, id) == RankedAssets(t, id)
  {
  }

  /** What keeps a snapshot: its run, its rankings and the scores they name. */
  lemma SnapshotFrame(t: Tables, next: Tables, id: Id)
    requires id in t.runs && RankSnapshot(t, id)
    requires id in next.runs && next.runs[id] == t.runs[id]
    requires RankingsOf(next, id) == RankingsOf(t, id)
    requires forall r :: r in RankingsOf(t, id) ==>
               && next.rankings[r] == t.rankings[r]
               && t.rankings[r].score in next.scores && next.scores[t.rankings[r].score] == t.scores[t.rankings[r].score]
    ensures RankSnapshot(next, id)
  {
    assert Ranks(next, id) == Ranks(t, id) && RankedAssets(next, id) == RankedAssets(t, id);
  }

  lemma StepKeepsRankings(t: Tables, s: Statement, id: Id)
    requires RunCompleted(t, id)
    ensures RankingsOf(Step(t, s), id) == RankingsOf(t, id)
    ensures forall r :: r in RankingsOf(t, id) ==> Step(t, s).rankings[r] == t.rankings[r]
  {
  }

  lemma StepKeepsPairedScore(t: Tables, s: Statement, id: Id)
    requires id in t.scores && (Terminal(t.scores[id].state) || RunCompleted(t, t.scores[id].run))
    ensures id in Step(t, s).scores && Step(t, s).scores[id] == t.scores[id]
  {
  }

  lemma StepKeepsRun(t: Tables, s: Statement, id: Id)
    requires RunCompleted(t, id)
    ensures RunCompleted(Step(t, s), id) && Step(t, s).runs[id] == t.runs[id]
  {
  }

  /** What a statement leaves of a completed run: the row, its rankings, and the scores they name. */
  lemma StepKeepsCompleted(t: Tables, s: Statement, id: Id)
    requires RunCompleted(t, id) && RankSnapshot(t, id)
    ensures var next := Step(t, s);
            && RunCompleted(next, id) && next.runs[id] == t.runs[id]
            && RankingsOf(next, id) == RankingsOf(t, id)
            && forall r :: r in RankingsOf(t, id) ==>
                 && next.rankings[r] == t.rankings[r]
                 && t.rankings[r].score in next.scores
                 && next.scores[t.rankings[r].score] == t.scores[t.rankings[r].score]
  {
    StepKeepsRun(t, s, id);
    StepKeepsRankings(t, s, id);
    forall r | r in RankingsOf(t, id)
      ensures t.rankings[r].score in Step(t, s).scores
      ensures Step(t, s).scores[t.rankings[r].score] == t.scores[t.rankings[r].score]
    {
      assert Paired(t, t.rankings[r], t.runs[id]);
      StepKeepsPairedScore(t, s, t.rankings[r].score);
    }
  }

  lemma StepKeepsValid(t: Tables, s: Statement)
    requires Valid(t)
    ensures Valid(Step(t, s))
  {
    var next := Step(t, s);
    forall id | RunCompleted(next, id)
      ensures RankSnapshot(next, id)
    {
      if RunCompleted(t, id) {
        StepKeepsCompleted(t, s, id);
        SnapshotFrame(t, next, id);
      } else {
        assert s.UpdateRun? && s.id == id;
        CompletionRanks(t, id, s.run);
      }
    }
  }

  lemma {:induction false} RunKeepsValid(t: Tables, statements: seq<Statement>)
    requires Valid(t)
    ensures Valid(Run(t, statements))
  {
    if statements != [] {
      RunKeepsValid(t, statements[..|statements| - 1]);
      StepKeepsValid(Run(t, statements[..|statements| - 1]), statements[|statements| - 1]);
    }
  }

  /** The ranking repeats the aggregate of a finished score of its run and asset, and all three carry the same versions. */
  predicate RepeatsScore(t: Tables, run: Id, r: Ranking)
    requires run in t.runs
  {
    && r.score in t.scores
    && var s, versions := t.scores[r.score], t.runs[run].versions;
    && s.run == run && s.asset == r.asset && s.aggregate == Some(r.aggregate)
    && s.state !in {Pending, Processing, RetryWait, DeadLetter} && s.completedAt.Some?
    && s.versions.scorer == versions.scorer == r.versions.scorer
    && s.versions.pillow == versions.pillow == r.versions.pillow
    && s.versions.configSha256 == versions.configSha256 == r.versions.configSha256
  }

  /** In every state reachable from empty tables a completed run has the snapshot. */
  lemma CompletedRunIsRanked(statements: seq<Statement>, id: Id)
    requires RunCompleted(Run(NOTHING, statements), id)
    ensures var last := Run(NOTHING, statements);
            && RankSnapshot(last, id)
            && forall r :: r in RankingsOf(last, id) ==> RepeatsScore(last, id, last.rankings[r])
  {
    RunKeepsValid(NOTHING, statements);
    var last := Run(NOTHING, statements);
    forall r | r in RankingsOf(last, id)
      ensures RepeatsScore(last, id, last.rankings[r])
    {
      assert Paired(last, last.rankings[r], last.runs[id]);
    }
  }

  /** Neither the row, nor its rankings, nor the scores they name change after completion. */
  lemma {:induction false} CompletedRunIsFrozen(t: Tables, statements: seq<Statement>, id: Id)
    requires Valid(t) && RunCompleted(t, id)
    ensures var last := Run(t, statements);
            && RunCompleted(last, id) && last.runs[id] == t.runs[id]
            && RankingsOf(last, id) == RankingsOf(t, id)
            && forall r :: r in RankingsOf(t, id) ==>
                 && last.rankings[r] == t.rankings[r]
                 && t.rankings[r].score in last.scores
                 && last.scores[t.rankings[r].score] == t.scores[t.rankings[r].score]
  {
    if statements != [] {
      var before := statements[..|statements| - 1];
      CompletedRunIsFrozen(t, before, id);
      RunKeepsValid(t, before);
      StepKeepsCompleted(Run(t, before), statements[|statements| - 1], id);
    }
  }

  // -------------------------------------------------------------------- scores that join later

  /** The statement moves a score of another run into this one. */
  predicate MovesIn(t: Tables, s: Statement, run: Id) {
    s.UpdateScore? && ScoreUpdateAdmitted(t, s.id, s.score) && s.score.run == run
  }

  /**
    The scores of a completed run are not frozen as a set: they stay the same exactly when
    the statement moves none in, and none ever leaves or changes.
  */
  lemma CompletedScoresOnlyGrow(t: Tables, s: Statement, run: Id)
    requires RunCompleted(t, run)
    ensures ScoresOf(t, run) <= ScoresOf(Step(t, s), run)
    ensures forall id :: id in ScoresOf(t, run) ==> Step(t, s).scores[id] == t.scores[id]
    ensures ScoresOf(Step(t, s), run) == ScoresOf(t, run) <==> !MovesIn(t, s, run)
  {
    if MovesIn(t, s, run) {
      assert s.id in ScoresOf(Step(t, s), run) && s.id !in ScoresOf(t, run);
    }
  }

  /** The statement does not reassign a score to another run. */
  predicate KeepsRun(t: Tables, s: Statement) {
    s.UpdateScore? && s.id in t.scores ==> s.score.run == t.scores[s.id].run
  }

  /** When no update reassigns a score, the scores of a completed run are frozen as a set too. */
  lemma {:induction false} CompletedScoresAreFrozen(t: Tables, statements: seq<Statement>, run: Id)
    requires Valid(t) && RunCompleted(t, run)
    requires forall k :: 0 <= k < |statements| ==> KeepsRun(Run(t, statements[..k]), statements[k])
    ensures ScoresOf(Run(t, statements), run) == ScoresOf(t, run)
    ensures forall id :: id in ScoresOf(t, run) ==> Run(t, statements).scores[id] == t.scores[id]
  {
    if statements != [] {
      var n := |statements| - 1;
      var before := statements[..n];
      forall k | 0 <= k < n
        ensures KeepsRun(Run(t, before[..k]), before[k])
      {
        assert before[..k] == statements[..k];
      }
      CompletedScoresAreFrozen(t, before, run);
      CompletedRunIsFrozen(t, before, run);
      assert KeepsRun(Run(t, before), statements[n]);
      CompletedScoresOnlyGrow(Run(t, before), statements[n], run);
    }
  }

  lemma RunAppends(t: Tables, statements: seq<Statement>, s: Statement)
    ensures Run(t, statements + [s]) == Step(Run(t, statements), s)
  {
    assert (statements + [s])[..|statements|] == statements;
  }

  predicate OnlyScore(run: ScoringRun, score: Score) {
    && RunChecks(run) && run.state.Running? && run.assetCount == 1
    && ScoreChecks(score) && score.run == 1 && score.state.Scored? && score.aggregate == Some(0) && score.versions == run.versions
  }

  function CompletedWith(run: ScoringRun, manifest: string): ScoringRun {
    run.(state := Completed, completedAt := Some(0), rankingManifest := Some(manifest))
  }

  function RankFirst(run: ScoringRun, score: Score): Ranking {
    Ranking(1, 3, score.asset, 1, 0, run.versions, true)
  }

  /** Run 1 scores, ranks and completes its one asset. */
  function FirstRun(run: ScoringRun, manifest: string, score: Score): seq<Statement> {
    [InsertRun(1, run)] + [InsertScore(3, score)] + [InsertRanking(7, RankFirst(run, score))]
    + [UpdateRun(1, CompletedWith(run, manifest))]
  }

  lemma FirstRunRanks(run: ScoringRun, score: Score)
    requires OnlyScore(run, score)
    ensures Run(NOTHING, [InsertRun(1, run)] + [InsertScore(3, score)] + [InsertRanking(7, RankFirst(run, score))])
            == Tables(map[1 := run], map[3 := score], map[7 := RankFirst(run, score)])
  {
    assert [] + [InsertRun(1, run)] == [InsertRun(1, run)];
    RunAppends(NOTHING, [], InsertRun(1, run));
    RunAppends(NOTHING, [InsertRun(1, run)], InsertScore(3, score));
    RunAppends(NOTHING, [InsertRun(1, run)] + [InsertScore(3, score)], InsertRanking(7, RankFirst(run, score)));
  }

  lemma FirstRunCompletes(run: ScoringRun, manifest: string, score: Score)
    requires OnlyScore(run, score) && |manifest| == 64
    ensures Run(NOTHING, FirstRun(run, manifest, score))
            == Tables(map[1 := CompletedWith(run, manifest)], map[3 := score], map[7 := RankFirst(run, score)])
  {
    var ranked := [InsertRun(1, run)] + [InsertScore(3, score)] + [InsertRanking(7, RankFirst(run, score))];
    var done := CompletedWith(run, manifest);
    FirstRunRanks(run, score);
    RunAppends(NOTHING, ranked, UpdateRun(1, done));
    OneRankingCompletes(Run(NOTHING, ranked), done);
  }

  lemma OneRankingCompletes(t: Tables, run: ScoringRun)
    requires 7 in t.rankings && RankingsOf(t, 1) == {7} && t.rankings[7].rank == 1 == run.assetCount
    requires Paired(t, t.rankings[7], run)
    ensures CompletionGuard(t, 1, run)
  {
    assert 7 in RankingsOf(t, 1);
  }

  /** Then run 2 starts with a pending score. */
  function SecondRun(run: ScoringRun, pending: Score): seq<Statement> {
    [InsertRun(2, run)] + [InsertScore(4, pending)]
  }

  lemma SecondRunStarts(t: Tables, before: seq<Statement>, run: ScoringRun, pending: Score)
    requires t == Run(NOTHING, before) && t.runs.Keys == {1} && t.scores.Keys == {3} && t.scores[3].asset != pending.asset
    requires RunChecks(run) && run.state.Running? && ScoreChecks(pending) && pending.run == 2
    ensures Run(NOTHING, before + SecondRun(run, pending))
            == Tables(t.runs[2 := run], t.scores[4 := pending], t.rankings)
  {
    RunAppends(NOTHING, before, InsertRun(2, run));
    RunAppends(NOTHING, before + [InsertRun(2, run)], InsertScore(4, pending));
    assert before + SecondRun(run, pending) == (before + [InsertRun(2, run)]) + [InsertScore(4, pending)];
  }

  lemma PendingScoreMoves(t: Tables, pending: Score)
    requires RunCompleted(t, 1) && t.scores.Keys == {3, 4} && t.scores[3].run == 1 && t.scores[4] == pending
    requires pending.run == 2 && 2 in t.runs && !RunCompleted(t, 2) && pending.state.Pending? && ScoreChecks(pending)
    requires t.scores[3].asset != pending.asset
    ensures ScoresOf(t, 1) == {3} && ScoresOf(Step(t, UpdateScore(4, pending.(run := 1))), 1) == {3, 4}
  {
  }

  /** From empty tables: a pending score of a running run is moved into a completed one. */
  lemma ScoreJoinsCompletedRun(run: ScoringRun, manifest: string, score: Score, pending: Score)
    requires OnlyScore(run, score) && |manifest| == 64
    requires ScoreChecks(pending) && pending.run == 2 && pending.state.Pending? && pending.asset != score.asset
    ensures var t := Run(NOTHING, FirstRun(run, manifest, score) + SecondRun(run, pending));
            var next := Step(t, UpdateScore(4, pending.(run := 1)));
            && Valid(t) && RunCompleted(t, 1) && RankingsOf(t, 1) == {7}
            && ScoresOf(t, 1) == {3} && ScoresOf(next, 1) == {3, 4}
  {
    var first := FirstRun(run, manifest, score);
    FirstRunCompletes(run, manifest, score);
    SecondRunStarts(Run(NOTHING, first), first, run, pending);
    RunKeepsValid(NOTHING, first + SecondRun(run, pending));
    PendingScoreMoves(Run(NOTHING, first + SecondRun(run, pending)), pending);
  }

  // -------------------------------------------------------------------- the database

  class Database {
    var runs: map<Id, ScoringRun>
    var scores: map<Id, Score>
    var rankings: map<Id, Ranking>

    function Rows(): Tables
      reads this
    {
      Tables(runs, scores, rankings)
    }

    constructor ()
      ensures Valid(Rows()) && Rows() == NOTHING
    {
      runs, scores, rankings := map[], map[], map[];
    }

    /** One statement with its triggers. */
    method Apply(s: Statement) returns (ok: bool)
      requires Valid(Rows())
      modifies this
      ensures Valid(Rows()) && Rows() == Step(old(Rows()), s)
      ensures ok <==> Execute(old(Rows()), s).Some?
    {
      StepKeepsValid(Rows(), s);
      ok := Execute(Rows(), s).Some?;
      if ok {
        match s
        case InsertRun(id, run) => runs := runs[id := run];
        case UpdateRun(id, run) => runs := runs[id := run];
        case DeleteRun(id) => runs := runs - {id};
        case InsertScore(id, score) => scores := scores[id := score];
        case UpdateScore(id, score) => scores := scores[id := score];
        case DeleteScore(id) => scores := scores - {id};
        case InsertRanking(id, ranking) => rankings := rankings[id := ranking];
      }
    }
  }

  // -------------------------------------------------------------------- the backfill validation

  /** A row of the backfill query: a ranking joined with its score. */
  datatype Row = Row(ranking: Ranking, scoreId: Id, score: Score)

  predicate RowFor(t: Tables, run: Id, r: Id, row: Row) {
    && r in RankingsOf(t, run) && Joined(t, t.rankings[r])
    && row == Row(t.rankings[r], t.rankings[r].score, t.scores[t.rankings[r].score])
  }

  ghost predicate HasRanking(t: Tables, run: Id, row: Row) {
    exists r :: RowFor(t, run, r, row)
  }

  ghost predicate HasRow(rows: seq<Row>, t: Tables, run: Id, r: Id) {
    exists i :: 0 <= i < |rows| && RowFor(t, run, r, rows[i])
  }

  predicate Increasing(rows: seq<Row>) {
    forall i, j :: 0 <= i < j < |rows| ==> rows[i].ranking.rank < rows[j].ranking.rank
  }

  /** The inner join of the rankings of a run with their scores, ordered by rank. */
  ghost predicate QueryOf(rows: seq<Row>, t: Tables, run: Id) {
    && (forall i {:trigger HasRanking(t, run, rows[i])} :: 0 <= i < |rows| ==> HasRanking(t, run, rows[i]))
    && (forall r {:trigger HasRow(rows, t, run, r)} :: r in JoinedRankings(t, run) ==> HasRow(rows, t, run, r))
    && Increasing(rows)
  }

  function JoinedRankings(t: Tables, run: Id): set<Id> {
    set r | r in RankingsOf(t, run) && Joined(t, t.rankings[r])
  }

  /** What the loop tests of one row. */
  predicate RowSound(row: Row, id: Id, run: ScoringRun) {
    && row.ranking.run == id && row.score.run == id
    && row.ranking.score == row.scoreId && row.ranking.asset == row.score.asset
    && Agrees(row.score, row.ranking, run) && Judged(row.score.state)
    && row.ranking.explanationIsObject && row.score.detailIsObject
  }

  ghost predicate RowsSound(rows: seq<Row>, id: Id, run: ScoringRun) {
    && run.completedAt.Some? && |rows| == run.assetCount
    && forall i :: 0 <= i < |rows| ==> rows[i].ranking.rank == i + 1 && RowSound(rows[i], id, run)
  }

  /** _validate_backfill_ranking: false where it raises. */
  method ValidateRanking(id: Id, run: ScoringRun, rows: seq<Row>) returns (ok: bool)
    ensures ok <==> RowsSound(rows, id, run)
  {
    if run.completedAt.None? || |rows| != run.assetCount { return false; }
    for i := 0 to |rows|
      invariant forall k :: 0 <= k < i ==> rows[k].ranking.rank == k + 1
    {
      if rows[i].ranking.rank != i + 1 { return false; }
    }
    for i := 0 to |rows|
      invariant forall k :: 0 <= k < i ==> RowSound(rows[k], id, run)
    {
      if !RowSound(rows[i], id, run) { return false; }
    }
    ok := true;
  }

  function RanksIn(rows: seq<Row>): set<int> {
    set row | row in rows :: row.ranking.rank
  }

  lemma {:induction false} IncreasingRanksCount(rows: seq<Row>)
    requires Increasing(rows)
    ensures |RanksIn(rows)| == |rows|
  {
    if rows != [] {
      var before, last := rows[..|rows| - 1], rows[|rows| - 1];
      IncreasingRanksCount(before);
      assert rows == before + [last];
      assert RanksIn(rows) == RanksIn(before) + {last.ranking.rank};
      assert last.ranking.rank !in RanksIn(before);
    }
  }

  /** The query has one row for each joined ranking. */
  lemma QueryCounts(rows: seq<Row>, t: Tables, run: Id)
    requires QueryOf(rows, t, run) && RankKeys(t.rankings)
    ensures |rows| == |JoinedRankings(t, run)|
  {
    var joined := JoinedRankings(t, run);
    var ranks := set r | r in joined :: t.rankings[r].rank;
    forall rank | rank in RanksIn(rows)
      ensures rank in ranks
    {
      var i :| 0 <= i < |rows| && rows[i].ranking.rank == rank;
      assert HasRanking(t, run, rows[i]);
      var r :| RowFor(t, run, r, rows[i]);
      assert r in joined;
    }
    forall r | r in joined
      ensures t.rankings[r].rank in RanksIn(rows)
    {
      assert HasRow(rows, t, run, r);
      var i :| 0 <= i < |rows| && RowFor(t, run, r, rows[i]);
      assert rows[i] in rows;
    }
    assert ranks == RanksIn(rows);
    IncreasingRanksCount(rows);
    InjectiveImageSize(joined, ranks, r requires r in t.rankings => t.rankings[r].rank);
  }

  /** What the loop tests beyond the trigger: documents, and the states of its time. */
  predicate Documented(t: Tables, r: Ranking)
    requires Joined(t, r)
  {
    r.explanationIsObject && t.scores[r.score].detailIsObject && Judged(t.scores[r.score].state)
  }

  predicate AllDocumented(t: Tables, run: Id) {
    forall r :: r in JoinedRankings(t, run) ==> Documented(t, t.rankings[r])
  }

  /** Every ranking of the run joins a score, as the trigger demands and the query silently assumes. */
  predicate AllJoined(t: Tables, run: Id) {
    forall r :: r in RankingsOf(t, run) ==> Joined(t, t.rankings[r])
  }

  /**
    The backfill's validation and the trigger's completion guard differ by exactly two
    conditions: the query does not see rankings without their score, and the trigger does not
    look at the documents.
  */
  lemma ValidationMeansCompletion(rows: seq<Row>, t: Tables, id: Id, run: ScoringRun)
    requires QueryOf(rows, t, id) && RankKeys(t.rankings)
    requires BaseRunChecks(run) && run.state.Completed?
    ensures RowsSound(rows, id, run) && AllJoined(t, id) <==> CompletionGuard(t, id, run) && AllDocumented(t, id)
  {
    if AllJoined(t, id) {
      assert RankingsOf(t, id) == JoinedRankings(t, id);
      QueryCounts(rows, t, id);
      if RowsSound(rows, id, run) { ValidatedRuns(rows, t, id, run); }
      if CompletionGuard(t, id, run) && AllDocumented(t, id) { CompletedRunsValidate(rows, t, id, run); }
    } else {
      var r :| r in RankingsOf(t, id) && !Joined(t, t.rankings[r]);
      assert !Paired(t, t.rankings[r], run);
    }
  }

  /** The trigger would accept a run that the backfill accepted exactly when every ranking joins its score. */
  lemma ValidatedRunCompletesExactly(rows: seq<Row>, t: Tables, id: Id, run: ScoringRun)
    requires QueryOf(rows, t, id) && RankKeys(t.rankings)
    requires BaseRunChecks(run) && run.state.Completed? && RowsSound(rows, id, run)
    ensures CompletionGuard(t, id, run) <==> AllJoined(t, id)
  {
    ValidationMeansCompletion(rows, t, id, run);
    if CompletionGuard(t, id, run) {
      forall r | r in RankingsOf(t, id)
        ensures Joined(t, t.rankings[r])
      {
        assert Paired(t, t.rankings[r], run);
      }
    }
  }

  lemma ValidatedRuns(rows: seq<Row>, t: Tables, id: Id, run: ScoringRun)
    requires QueryOf(rows, t, id) && AllJoined(t, id) && RowsSound(rows, id, run) && |rows| == |RankingsOf(t, id)|
    requires run.assetCount > 0
    ensures CompletionGuard(t, id, run) && AllDocumented(t, id)
  {
    forall r | r in RankingsOf(t, id)
      ensures Paired(t, t.rankings[r], run) && 1 <= t.rankings[r].rank <= run.assetCount
      ensures Documented(t, t.rankings[r])
    {
      assert HasRow(rows, t, id, r);
      var i :| 0 <= i < |rows| && RowFor(t, id, r, rows[i]);
    }
    RowOf(rows, t, id, 0);
    RowOf(rows, t, id, |rows| - 1);
  }

  lemma RowOf(rows: seq<Row>, t: Tables, id: Id, i: nat)
    requires QueryOf(rows, t, id) && i < |rows|
    ensures exists r :: r in RankingsOf(t, id) && t.rankings[r].rank == rows[i].ranking.rank
  {
    assert HasRanking(t, id, rows[i]);
    var r :| RowFor(t, id, r, rows[i]);
  }

  lemma CompletedRowSound(rows: seq<Row>, t: Tables, id: Id, run: ScoringRun, i: nat)
    requires QueryOf(rows, t, id) && AllJoined(t, id) && i < |rows|
    requires CompletionGuard(t, id, run)
    requires AllDocumented(t, id)
    ensures RowSound(rows[i], id, run) && 1 <= rows[i].ranking.rank <= run.assetCount
  {
    assert HasRanking(t, id, rows[i]);
    var r :| RowFor(t, id, r, rows[i]);
    assert Paired(t, t.rankings[r], run);
  }

  lemma CompletedRunsValidate(rows: seq<Row>, t: Tables, id: Id, run: ScoringRun)
    requires QueryOf(rows, t, id) && AllJoined(t, id) && |rows| == |RankingsOf(t, id)|
    requires CompletionGuard(t, id, run) && run.completedAt.Some?
    requires AllDocumented(t, id)
    ensures RowsSound(rows, id, run)
  {
    var ranks := seq(|rows|, k requires 0 <= k < |rows| => rows[k].ranking.rank);
    forall i | 0 <= i < |rows|
      ensures RowSound(rows[i], id, run) && 1 <= ranks[i] <= |rows|
    {
      CompletedRowSound(rows, t, id, run, i);
    }
    forall i | 0 <= i < |rows|
      ensures rows[i].ranking.rank == i + 1
    {
      IncreasingFillsTheRange(ranks, i);
    }
  }

  /** An increasing sequence of n integers within 1..n is 1, 2, ..., n. */
  lemma IncreasingFillsTheRange(ranks: seq<int>, i: nat)
    requires i < |ranks| && forall k :: 0 <= k < |ranks| ==> 1 <= ranks[k] <= |ranks|
    requires forall k, l :: 0 <= k < l < |ranks| ==> ranks[k] < ranks[l]
    ensures ranks[i] == i + 1
  {
    RanksFromBelow(ranks, i);
    RanksFromAbove(ranks, i);
  }

  lemma {:induction false} RanksFromBelow(ranks: seq<int>, i: nat)
    requires i < |ranks| && forall k :: 0 <= k < |ranks| ==> 1 <= ranks[k]
    requires forall k, l :: 0 <= k < l < |ranks| ==> ranks[k] < ranks[l]
    ensures ranks[i] >= i + 1
  {
    if i > 0 { RanksFromBelow(ranks, i - 1); }
  }

  lemma {:induction false} RanksFromAbove(ranks: seq<int>, i: nat)
    requires i < |ranks| && forall k :: 0 <= k < |ranks| ==> ranks[k] <= |ranks|
    requires forall k, l :: 0 <= k < l < |ranks| ==> ranks[k] < ranks[l]
    ensures ranks[i] <= i + 1
    decreases |ranks| - i
  {
    if i + 1 < |ranks| { RanksFromAbove(ranks, i + 1); }
  }

  /** Without that provision the backfill accepts a run that the trigger refuses: the join drops the stray ranking. */
  lemma StrayRankingPassesValidation(run: ScoringRun, good: Score, ranking: Ranking)
    requires BaseRunChecks(run) && run.state.Completed? && run.rankingManifest.None? && run.assetCount == 1
    requires ScoreChecks(good) && good.run == 1 && good.asset == 5 && good.detailIsObject && Judged(good.state)
    requires RankingChecks(ranking) && ranking.explanationIsObject
    requires ranking.run == 1 && ranking.score == 3 && ranking.asset == 5 && ranking.rank == 1
    requires Agrees(good, ranking, run)
    ensures var stray := ranking.(score := 4, asset := 6, rank := 2);
            var other := run.(state := Running, completedAt := None);
            var t := Tables(map[1 := run, 2 := other], map[3 := good, 4 := good.(run := 2, asset := 6)],
                            map[7 := ranking, 8 := stray]);
            && QueryOf([Row(ranking, 3, good)], t, 1) && RankKeys(t.rankings)
            && RowsSound([Row(ranking, 3, good)], 1, run)
            && !CompletionGuard(t, 1, run) && !AllJoined(t, 1)
  {
    var stray := ranking.(score := 4, asset := 6, rank := 2);
    var other := run.(state := Running, completedAt := None);
    var t := Tables(map[1 := run, 2 := other], map[3 := good, 4 := good.(run := 2, asset := 6)],
                    map[7 := ranking, 8 := stray]);
    assert RankingsOf(t, 1) == {7, 8};
    assert Joined(t, t.rankings[7]) && !Joined(t, t.rankings[8]);
    var rows := [Row(ranking, 3, good)];
    assert RowFor(t, 1, 7, rows[0]);
    assert HasRanking(t, 1, rows[0]) && HasRow(rows, t, 1, 7);
  }
}
