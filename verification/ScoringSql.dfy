/**
  The guards of `Scoring` against the text of the triggers and CHECK constraints that they model,
  in three-valued logic, and against the comparisons of the backfill.
*/
module ScoringSql {
  import opened Basics
  import opened Scoring
  import opened Sql

  // -------------------------------------------------------------------- constraints

  /** The CHECKs of migrations 0004 and 0008 on scoring_runs. */
  predicate RunRowChecks(r: ScoringRun) {
    var length := if r.rankingManifest.Some? then Some(|r.rankingManifest.value|) else None;
    && Passes(Lt(Some(0), Some(r.assetCount)))
    && Passes(Any([
         All([Of(r.state == Completed), Not(IsNull(r.completedAt)), Not(IsNull(r.rankingManifest)), Eq(length, Some(64))]),
         All([Of(r.state != Completed), IsNull(r.completedAt), IsNull(r.rankingManifest)])]))
  }

  /** Before migration 0008. */
  predicate BaseRunRowChecks(r: ScoringRun) {
    && Passes(Lt(Some(0), Some(r.assetCount)))
    && Passes(Any([All([Of(r.state == Completed), Not(IsNull(r.completedAt))]),
                   All([Of(r.state != Completed), IsNull(r.completedAt)])]))
  }

  /** The CHECKs of migrations 0004 and 0042 on asset_scores that read these columns. */
  predicate ScoreRowChecks(s: Score) {
    && Passes(Any([Of(s.state !in {Scored, FlaggedBlank, FlaggedCorrupt, DeadLetter, Skipped}), Not(IsNull(s.completedAt))]))
    && Passes(Any([Of(s.state !in {Scored, FlaggedBlank}), All([Of(s.measured == Complete), Not(IsNull(s.aggregate))])]))
    && Passes(Any([Of(s.state != Skipped),
                   All([Eq(Some(s.versions.scorer), Some("manual-review-v1")), Eq(s.aggregate, Some(0)), Of(s.measured == Absent)])]))
    && Passes(Any([IsNull(s.aggregate), All([Le(Some(0), s.aggregate), Le(s.aggregate, Some(1000000))])]))
  }

  predicate RankingRowChecks(r: Ranking) {
    && Passes(Lt(Some(0), Some(r.rank)))
    && Passes(All([Le(Some(0), Some(r.aggregate)), Le(Some(r.aggregate), Some(1000000))]))
  }

  lemma ChecksAreSql(run: ScoringRun, score: Score, ranking: Ranking)
    ensures RunChecks(run) <==> RunRowChecks(run)
    ensures BaseRunChecks(run) <==> BaseRunRowChecks(run)
    ensures ScoreChecks(score) <==> ScoreRowChecks(score)
    ensures RankingChecks(ranking) <==> RankingRowChecks(ranking)
  {
  }

  /** The CHECK of migration 0042 is unknown for a NULL aggregate: a skipped score has aggregate 0 exactly when it has one. */
  lemma SkippedCanLackAggregate(versions: Versions)
    requires versions.scorer == MANUAL_SCORER
    ensures ScoreRowChecks(Score(1, 2, Skipped, None, Absent, versions, Some(0), true))
    ensures forall s :: ScoreRowChecks(s) && s.state == Skipped ==> (s.aggregate == Some(0) <==> s.aggregate.Some?)
  {
  }

  // -------------------------------------------------------------------- freeze triggers

  /** EXISTS (SELECT 1 FROM scoring_runs WHERE id = run AND state = 'completed'). */
  predicate CompletedFound(t: Tables, run: Id) {
    exists r :: r in t.runs && r == run && t.runs[r].state == Completed
  }

  /** The WHEN clause of the frozen-update and frozen-delete triggers of migration 0042, on the OLD row. */
  predicate Frozen(t: Tables, was: Score) {
    was.state in {Scored, FlaggedBlank, FlaggedCorrupt, DeadLetter, Skipped} || CompletedFound(t, was.run)
  }

  /** UNIQUE (scoring_run_id, asset_id) of asset_scores. */
  predicate ScoreKeys(t: Tables, id: Id, s: Score) {
    forall o :: o in t.scores && o != id ==> (t.scores[o].run, t.scores[o].asset) != (s.run, s.asset)
  }

  /** The unique keys of asset_rankings. */
  predicate RankingKeys(t: Tables, r: Ranking) {
    forall o :: o in t.rankings ==>
      && t.rankings[o].score != r.score
      && (t.rankings[o].run, t.rankings[o].asset) != (r.run, r.asset)
      && (t.rankings[o].run, t.rankings[o].rank) != (r.run, r.rank)
  }

  /** INSERT, UPDATE and DELETE of a score, and INSERT of a ranking, with their foreign keys. */
  lemma ScoreStatementsAreSql(t: Tables, id: Id, s: Score, r: Ranking)
    ensures Execute(t, InsertScore(id, s)).Some? <==>
            && id !in t.scores && s.run in t.runs && ScoreRowChecks(s) && ScoreKeys(t, id, s) && !CompletedFound(t, s.run)
    ensures Execute(t, UpdateScore(id, s)).Some? <==>
            && id in t.scores && s.run in t.runs && ScoreRowChecks(s) && ScoreKeys(t, id, s) && !Frozen(t, t.scores[id])
    ensures Execute(t, DeleteScore(id)).Some? <==>
            && id in t.scores && !Frozen(t, t.scores[id]) && !exists o :: o in t.rankings && t.rankings[o].score == id
    ensures Execute(t, InsertRanking(id, r)).Some? <==>
            && id !in t.rankings && r.run in t.runs && r.score in t.scores
            && RankingRowChecks(r) && RankingKeys(t, r) && !CompletedFound(t, r.run)
  {
    ChecksAreSql(ScoringRun(Running, 0, s.versions, None, None), s, r);
  }

  // -------------------------------------------------------------------- completion

  /** The ON clause of the left join. */
  predicate OnClause(t: Tables, r: Ranking, score: Id) {
    score in t.scores && score == r.score && t.scores[score].run == r.run && t.scores[score].asset == r.asset
  }

  /** The columns of the joined score, NULL where the join found none. */
  function StateOf(s: Option<Score>): Option<ScoreState> { if s.Some? then Some(s.value.state) else None }
  function CompletedAtOf(s: Option<Score>): Option<int> { if s.Some? then s.value.completedAt else None }
  function AggregateOf(s: Option<Score>): Option<int> { if s.Some? then s.value.aggregate else None }
  function ScorerOf(s: Option<Score>): Option<string> { if s.Some? then Some(s.value.versions.scorer) else None }
  function PillowOf(s: Option<Score>): Option<string> { if s.Some? then Some(s.value.versions.pillow) else None }
  function ConfigOf(s: Option<Score>): Option<string> { if s.Some? then Some(s.value.versions.configSha256) else None }

  /** state NOT IN (...) of migration 0042. */
  function NotRankable(state: Option<ScoreState>): Truth {
    if state.None? then Null else Of(state.value !in {Scored, FlaggedBlank, FlaggedCorrupt, Skipped})
  }

  /** The WHERE clause of the EXISTS, for a ranking of the run and its score or none. */
  predicate WrongPair(s: Option<Score>, r: Ranking, now: ScoringRun) {
    Holds(Any([
      IsNull(s), NotRankable(StateOf(s)), IsNull(CompletedAtOf(s)), IsNull(AggregateOf(s)),
      Ne(AggregateOf(s), Some(r.aggregate)),
      Ne(ScorerOf(s), Some(now.versions.scorer)), Ne(Some(r.versions.scorer), Some(now.versions.scorer)),
      Ne(PillowOf(s), Some(now.versions.pillow)), Ne(Some(r.versions.pillow), Some(now.versions.pillow)),
      Ne(ConfigOf(s), Some(now.versions.configSha256)), Ne(Some(r.versions.configSha256), Some(now.versions.configSha256))]))
  }

  /** The row of the left join that belongs to the ranking is wrong. */
  predicate WrongRanking(t: Tables, r: Id, now: ScoringRun)
    requires r in t.rankings
  {
    || (exists s :: s in t.scores && OnClause(t, t.rankings[r], s) && WrongPair(Some(t.scores[s]), t.rankings[r], now))
    || ((forall s :: s in t.scores ==> !OnClause(t, t.rankings[r], s)) && WrongPair(None, t.rankings[r], now))
  }

  function RowsOf(t: Tables, run: Id): set<Id> {
    set r | r in t.rankings && t.rankings[r].run == run
  }

  function RanksOf(t: Tables, run: Id): set<int> {
    set r | r in RowsOf(t, run) :: t.rankings[r].rank
  }

  /** scoring_runs_validate_completion raises. */
  ghost predicate CompletionRaises(t: Tables, id: Id, now: ScoringRun) {
    || Holds(Any([
         Ne(Some(|RowsOf(t, id)|), Some(now.assetCount)), Ne(Min(RanksOf(t, id)), Some(1)),
         Ne(Max(RanksOf(t, id)), Some(now.assetCount))]))
    || exists r :: r in RowsOf(t, id) && WrongRanking(t, r, now)
  }

  lemma PairedIsSql(t: Tables, r: Id, now: ScoringRun)
    requires r in t.rankings
    ensures Paired(t, t.rankings[r], now) <==> !WrongRanking(t, r, now)
  {
    if OnClause(t, t.rankings[r], t.rankings[r].score) {
      var s := t.scores[t.rankings[r].score];
      assert Agrees(s, t.rankings[r], now) <==> !WrongPair(Some(s), t.rankings[r], now);
    } else {
      assert WrongPair(None, t.rankings[r], now);
    }
  }

  lemma CountAndBoundsAreSql(t: Tables, id: Id, count: int)
    ensures var rows := RankingsOf(t, id);
            !Holds(Any([Ne(Some(|RowsOf(t, id)|), Some(count)), Ne(Min(RanksOf(t, id)), Some(1)),
                        Ne(Max(RanksOf(t, id)), Some(count))])) <==>
            && |rows| == count
            && (rows != {} ==> (exists r :: r in rows && t.rankings[r].rank == 1) && forall r :: r in rows ==> t.rankings[r].rank >= 1)
            && (rows != {} ==> (exists r :: r in rows && t.rankings[r].rank == count)
                               && forall r :: r in rows ==> t.rankings[r].rank <= count)
  {
    var rows := RankingsOf(t, id);
    assert RowsOf(t, id) == rows;
    assert forall r :: r in rows ==> t.rankings[r].rank in RanksOf(t, id);
    if rows == {} {
      assert forall m :: m !in RanksOf(t, id);
    } else {
      var one :| one in rows;
      MinAndMaxExist(RanksOf(t, id), t.rankings[one].rank);
    }
  }

  lemma CompletionGuardIsSql(t: Tables, id: Id, now: ScoringRun)
    ensures CompletionGuard(t, id, now) <==> !CompletionRaises(t, id, now)
  {
    assert RowsOf(t, id) == RankingsOf(t, id);
    CountAndBoundsAreSql(t, id, now.assetCount);
    forall r | r in RowsOf(t, id)
      ensures Paired(t, t.rankings[r], now) <==> !WrongRanking(t, r, now)
    {
      PairedIsSql(t, r, now);
    }
  }

  /** INSERT of a running run, UPDATE of a run and its DELETE. */
  lemma RunStatementsAreSql(t: Tables, id: Id, run: ScoringRun)
    ensures Execute(t, InsertRun(id, run)).Some? <==> id !in t.runs && RunRowChecks(run) && run.state == Running
    ensures Execute(t, UpdateRun(id, run)).Some? <==>
            && id in t.runs && RunRowChecks(run) && t.runs[id].state != Completed
            && !(t.runs[id].state == Running && run.state == Completed && CompletionRaises(t, id, run))
    ensures Execute(t, DeleteRun(id)).Some? <==>
            && id in t.runs && t.runs[id].state != Completed
            && !(exists s :: s in t.scores && t.scores[s].run == id) && !exists r :: r in t.rankings && t.rankings[r].run == id
  {
    assert RunChecks(run) <==> RunRowChecks(run);
    CompletionGuardIsSql(t, id, run);
    assert forall s :: s in t.scores && t.scores[s].run == id ==> s in ScoresOf(t, id);
    assert forall r :: r in t.rankings && t.rankings[r].run == id ==> r in RankingsOf(t, id);
  }

  // -------------------------------------------------------------------- the backfill

  /** The disjunction over which the loop of _validate_backfill_ranking raises. */
  predicate LoopRaises(row: Row, id: Id, run: ScoringRun) {
    var r, s := row.ranking, row.score;
    || r.run != id || s.run != id || r.score != row.scoreId || r.asset != s.asset
    || s.state !in {Scored, FlaggedBlank, FlaggedCorrupt} || s.completedAt.None? || s.aggregate.None?
    || Some(r.aggregate) != s.aggregate
    || r.versions.scorer != run.versions.scorer || s.versions.scorer != run.versions.scorer
    || r.versions.pillow != run.versions.pillow || s.versions.pillow != run.versions.pillow
    || r.versions.configSha256 != run.versions.configSha256 || s.versions.configSha256 != run.versions.configSha256
    || !r.explanationIsObject || !s.detailIsObject
  }

  lemma LoopTestsColumns(row: Row, id: Id, run: ScoringRun)
    ensures RowSound(row, id, run) <==> !LoopRaises(row, id, run)
  {
  }
}
