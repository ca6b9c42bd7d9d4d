/**
  Jobs that do not gate a release: they render a proposed X revision (migration 0027).  Which of
  them are inserted, and which of them can still succeed.
*/
module Proposals {
  import opened Basics
  import opened Finishing
  import opened Promoting
  import opened Releases
  import opened Rendering
  import Heads
  import Jobs

  // -------------------------------------------------------------------- who is inserted

  /** A release of one of these phases takes the job; in rendering the review must serve a revision already. */
  predicate TakesProposal(release: Release, no: int, active: Option<Id>) {
    && release.currentVersionNo == no
    && (|| release.phase == ReadyToPublish || release.phase == Publishing || release.phase == Published
        || (release.phase == Rendering && active.Some?))
  }

  /** A requested job outside the gate, under free keys, for a selection and a recipe of its version. */
  predicate Orderly(t: Tables, id: Id, job: Jobs.Job) {
    var i := job.identity;
    && id !in t.jobs && Jobs.Checks(job) && job.state.Requested? && !i.gates
    && (forall j :: j in t.jobs ==>
          && t.jobs[j].identity.logicalKey != i.logicalKey
          && (t.jobs[j].identity.selection, t.jobs[j].identity.recipe, t.jobs[j].identity.revision) != (i.selection, i.recipe, i.revision))
    && i.selection in t.selections && t.selections[i.selection].version == i.version
    && i.recipe in t.recipes && t.recipes[i.recipe].version == i.version && t.recipes[i.recipe].expectedOutputs == i.expectedOutputs
  }

  /** An orderly job is inserted exactly when a head of its review and version proposes its revision and the release takes it. */
  lemma ProposalInserted(t: Tables, id: Id, job: Jobs.Job)
    requires Valid(t) && Orderly(t, id, job)
    ensures var i := job.identity;
            Execute(t, InsertJob(id, job)).Some? <==>
            exists h :: h in t.heads
              && t.heads[h].task == t.selections[i.selection].task && t.heads[h].version == i.version
              && i.revision.Some? && t.heads[h].pending == i.revision
              && i.version in t.versions && t.versions[i.version].release in t.releases
              && TakesProposal(t.releases[t.versions[i.version].release], t.versions[i.version].no, t.heads[h].active)
  {
    var i := job.identity;
    if Placed(t, i) {
      var release := t.releases[t.versions[i.version].release];
      var h :| h in t.heads && Proposes(t.heads[h], !release.phase.Rendering?, i, t.selections[i.selection].task);
      assert TakesProposal(release, t.versions[i.version].no, t.heads[h].active) && PointsAtOwn(t, t.heads[h]);
    }
    if h :| h in t.heads && t.heads[h].task == t.selections[i.selection].task && t.heads[h].version == i.version
            && i.revision.Some? && t.heads[h].pending == i.revision && i.version in t.versions
            && t.versions[i.version].release in t.releases
            && TakesProposal(t.releases[t.versions[i.version].release], t.versions[i.version].no, t.heads[h].active)
    {
      assert PointsAtOwn(t, t.heads[h]);
      assert Proposes(t.heads[h], !t.releases[t.versions[i.version].release].phase.Rendering?, i, t.selections[i.selection].task);
    }
  }

  // -------------------------------------------------------------------- their revision stays one of their review

  /** The revision is one of the job's review and version, and so is a head. */
  predicate Proposed(t: Tables, i: Jobs.Identity) {
    && i.selection in t.selections && i.revision.Some? && i.revision.value in t.revisions
    && t.revisions[i.revision.value].task == t.selections[i.selection].task
    && t.revisions[i.revision.value].version == i.version
    && exists h :: h in t.heads && t.heads[h].task == t.selections[i.selection].task && t.heads[h].version == i.version
  }

  ghost predicate ProposalsSound(t: Tables) {
    forall j :: j in t.jobs && !t.jobs[j].identity.gates ==> Proposed(t, t.jobs[j].identity)
  }

  lemma PlacedIsProposed(t: Tables, i: Jobs.Identity)
    requires Valid(t) && !i.gates && i.selection in t.selections && Placed(t, i)
    ensures Proposed(t, i)
  {
    var h :| h in t.heads
        && Proposes(t.heads[h], !t.releases[t.versions[i.version].release].phase.Rendering?, i, t.selections[i.selection].task);
    assert PointsAtOwn(t, t.heads[h]);
  }

  lemma StepKeepsSelection(t: Tables, s: Statement, id: Id)
    requires id in t.selections
    ensures id in Step(t, s).selections && Step(t, s).selections[id] == t.selections[id]
  {
  }

  lemma StepKeepsRevision(t: Tables, s: Statement, id: Id)
    requires id in t.revisions
    ensures id in Step(t, s).revisions && Step(t, s).revisions[id] == t.revisions[id]
  {
  }

  lemma StepKeepsPromoted(t: Tables, s: Statement, version: Id)
    requires version in t.promoted
    ensures version in Step(t, s).promoted && Step(t, s).versions == t.versions
  {
  }

  lemma StepKeepsProposed(t: Tables, s: Statement, i: Jobs.Identity)
    requires Proposed(t, i)
    ensures Proposed(Step(t, s), i)
  {
    StepKeepsSelection(t, s, i.selection);
    StepKeepsRevision(t, s, i.revision.value);
    var h :| h in t.heads && t.heads[h].task == t.selections[i.selection].task && t.heads[h].version == i.version;
    StepUpdatesHead(t, s, h);
    assert h in Step(t, s).heads;
  }

  lemma StepKeepsProposals(t: Tables, s: Statement)
    requires Valid(t) && ProposalsSound(t)
    ensures ProposalsSound(Step(t, s))
  {
    var next := Step(t, s);
    forall j | j in next.jobs && !next.jobs[j].identity.gates
      ensures Proposed(next, next.jobs[j].identity)
    {
      var i := next.jobs[j].identity;
      if j in t.jobs {
        StepKeepsIdentity(t, s, j);
      } else {
        StepAddsJob(t, s, j);
        PlacedIsProposed(t, i);
      }
      StepKeepsProposed(t, s, i);
    }
  }

  /** In every reachable state the revision of a job outside the gate is one of its review, which has a head. */
  lemma {:induction false} ProposalsStaySound(t: Tables, statements: seq<Statement>)
    requires Valid(t) && ProposalsSound(t)
    ensures ProposalsSound(Run(t, statements))
  {
    if statements != [] {
      var before, s := statements[..|statements| - 1], statements[|statements| - 1];
      ProposalsStaySound(t, before);
      RunKeepsValid(t, before);
      StepKeepsProposals(Run(t, before), s);
    }
  }

  // -------------------------------------------------------------------- who cannot succeed any more

  /** A promoted version has the number of this one, in the same release. */
  predicate NumberPromoted(t: Tables, version: Id) {
    version in t.versions && exists v :: v in t.promoted && v in t.versions && t.versions[v] == t.versions[version]
  }

  /** The job failed, and no rearm is possible in the rendering phase that is over. */
  predicate FailedBehind(t: Tables, id: Id) {
    id in t.jobs && t.jobs[id].state.Failed? && NumberPromoted(t, t.jobs[id].identity.version)
  }

  lemma StepKeepsFailedBehind(t: Tables, s: Statement, id: Id)
    requires Valid(t) && FailedBehind(t, id)
    ensures FailedBehind(Step(t, s), id)
  {
    var version := t.jobs[id].identity.version;
    var v :| v in t.promoted && v in t.versions && t.versions[v] == t.versions[version];
    assert !CurrentIn(t.releases, t.versions, v, Rendering);
    assert !Rearmable(t, t.jobs[id].identity);
    StepUpdatesJob(t, s, id);
    StepKeepsPromoted(t, s, v);
  }

  lemma {:induction false} FailedBehindForever(t: Tables, statements: seq<Statement>, id: Id)
    requires Valid(t) && FailedBehind(t, id)
    ensures FailedBehind(Run(t, statements), id)
  {
    if statements != [] {
      var before, s := statements[..|statements| - 1], statements[|statements| - 1];
      FailedBehindForever(t, before, id);
      RunKeepsValid(t, before);
      StepKeepsFailedBehind(Run(t, before), s, id);
    }
  }

  // -------------------------------------------------------------------- the others have a run

  /** The release as the job needs it: rendering for a rearm, published otherwise. */
  function Suited(t: Tables, id: Id): Release
    requires id in t.jobs && t.jobs[id].identity.version in t.versions
  {
    Release(if t.jobs[id].state.Failed? then Rendering else Published, t.versions[t.jobs[id].identity.version].no, 1)
  }

  /** The tables with that release. */
  function Suiting(t: Tables, id: Id): Tables
    requires id in t.jobs && t.jobs[id].identity.version in t.versions
  {
    t.(releases := t.releases[t.versions[t.jobs[id].identity.version].release := Suited(t, id)])
  }

  lemma SuitRelease(t: Tables, id: Id) returns (statements: seq<Statement>)
    requires Valid(t) && id in t.jobs && t.jobs[id].identity.version in t.versions && !FailedBehind(t, id)
    ensures Run(t, statements) == Suiting(t, id)
  {
    var release := t.versions[t.jobs[id].identity.version].release;
    forall v | v in t.promoted && v in t.versions && t.versions[v].release == release && t.jobs[id].state.Failed?
      ensures t.versions[v].no != Suited(t, id).currentVersionNo
    {
      assert t.versions[v] != t.versions[t.jobs[id].identity.version];
    }
    statements := [PutRelease(release, Suited(t, id))];
    RunOne(t, PutRelease(release, Suited(t, id)));
  }

  /** A head without a pending revision proposes one that it does not serve. */
  lemma Propose(t: Tables, id: Id, revision: Id) returns (statements: seq<Statement>, h: Heads.Head)
    requires Valid(t) && id in t.heads && t.heads[id].pending.None? && t.heads[id].active != Some(revision)
    requires revision in t.revisions && t.revisions[revision].task == t.heads[id].task && t.revisions[revision].version == t.heads[id].version
    ensures h == t.heads[id].(pending := Some(revision), lockVersion := h.lockVersion)
    ensures Run(t, statements) == t.(heads := t.heads[id := h])
  {
    h := t.heads[id].(pending := Some(revision), lockVersion := t.heads[id].lockVersion + 1);
    assert PointsAtOwn(t, t.heads[id]) && Heads.Checks(t.heads[id]);
    statements := [UpdateHead(id, h)];
    RunOne(t, UpdateHead(id, h));
    HeadStep(t, id, h);
  }

  /** Whatever the head points at, it can serve a new revision and propose the job's one. */
  lemma ProposeAgain(t: Tables, id: Id, h: Id) returns (statements: seq<Statement>)
    requires Valid(t) && id in t.jobs && Proposed(t, t.jobs[id].identity)
    requires h in t.heads && t.heads[h].task == TaskOf(t, id) && t.heads[h].version == t.jobs[id].identity.version
    requires Movable(t, t.jobs[id].identity.version, TaskOf(t, id), t.selections[t.jobs[id].identity.selection].asset)
    ensures var next, i := Run(t, statements), t.jobs[id].identity;
            && MovesHeads(t, next) && h in next.heads && Proposes(next.heads[h], false, i, TaskOf(t, id))
  {
    var i := t.jobs[id].identity;
    var withdrawn, w := Withdraw(t, h);
    var mid := t.(heads := t.heads[h := w]);
    RunKeepsValid(t, withdrawn);
    var revision, r := NewRevision(mid, i.version, TaskOf(t, id), t.selections[i.selection].asset);
    var replaced, a := Replace(mid, h, revision, r);
    var served := Moved(mid, revision, r, h, a);
    RunKeepsValid(mid, replaced);
    assert served.heads[h] == a && mid.jobs[id].identity.revision != Some(revision);
    var proposed, p := Propose(served, h, i.revision.value);
    statements := withdrawn + replaced + proposed;
    RunTwice(t, withdrawn, replaced);
    RunTwice(t, withdrawn + replaced, proposed);
  }

  /** With the release and the head in place the job may run. */
  lemma SuitedIsWorkable(t: Tables, next: Tables, id: Id, h: Id)
    requires CanSucceed(t, id) && !t.jobs[id].state.Succeeded? && !t.jobs[id].identity.gates
    requires t.jobs[id].identity.selection in t.selections && t.jobs[id].identity.version in t.versions
    requires Valid(next) && MovesHeads(Suiting(t, id), next)
    requires h in next.heads && Proposes(next.heads[h], false, t.jobs[id].identity, TaskOf(t, id))
    ensures Workable(next, id)
  {
    assert OutputsOf(next, id) == OutputsOf(t, id);
    SuitedIsPlaced(t, next, id, h);
  }

  lemma SuitedIsPlaced(t: Tables, next: Tables, id: Id, h: Id)
    requires id in t.jobs && !t.jobs[id].identity.gates
    requires t.jobs[id].identity.selection in t.selections && t.jobs[id].identity.version in t.versions
    requires MovesHeads(Suiting(t, id), next)
    requires h in next.heads && Proposes(next.heads[h], false, t.jobs[id].identity, TaskOf(t, id))
    ensures Placed(next, t.jobs[id].identity)
    ensures t.jobs[id].state.Failed? ==> CurrentIn(next.releases, next.versions, t.jobs[id].identity.version, Rendering)
  {
    assert Proposes(next.heads[h], !Suited(t, id).phase.Rendering?, t.jobs[id].identity, TaskOf(t, id));
  }

  lemma Prepare(t: Tables, id: Id) returns (statements: seq<Statement>)
    requires Valid(t) && CanSucceed(t, id) && !t.jobs[id].state.Succeeded? && !t.jobs[id].identity.gates
    requires Proposed(t, t.jobs[id].identity) && !FailedBehind(t, id)
    ensures Workable(Run(t, statements), id)
  {
    var i := t.jobs[id].identity;
    assert JobSound(t, id) && SelectionKeyed(t.selections[i.selection], t.reviews, t.assets, t.versions);
    var task := t.selections[i.selection].task;
    var h :| h in t.heads && t.heads[h].task == task && t.heads[h].version == i.version;
    var suited := SuitRelease(t, id);
    RunKeepsValid(t, suited);
    var proposed := ProposeAgain(Suiting(t, id), id, h);
    statements := suited + proposed;
    RunTwice(t, suited, proposed);
    RunKeepsValid(t, statements);
    SuitedIsWorkable(t, Run(t, statements), id, h);
  }

  lemma FinishProposal(t: Tables, id: Id) returns (statements: seq<Statement>)
    requires Valid(t) && CanSucceed(t, id) && !t.jobs[id].identity.gates
    requires Proposed(t, t.jobs[id].identity) && !FailedBehind(t, id)
    ensures id in Run(t, statements).jobs && Run(t, statements).jobs[id].state.Succeeded?
  {
    statements := [];
    if !t.jobs[id].state.Succeeded? {
      var prepared := Prepare(t, id);
      var finished := FinishJob(Run(t, prepared), id);
      RunTwice(t, prepared, finished);
      statements := prepared + finished;
    }
  }

  /**
    A job outside the gate succeeds in some run exactly when it is not stuck, and, if it failed, the
    version number of its release that a rearm asks for was not promoted yet.
  */
  lemma ProposalSucceedsInSomeRun(t: Tables, id: Id)
    requires Valid(t) && ProposalsSound(t) && id in t.jobs && !t.jobs[id].identity.gates
    ensures CanSucceed(t, id) && !FailedBehind(t, id) <==>
            exists statements :: id in Run(t, statements).jobs && Run(t, statements).jobs[id].state.Succeeded?
  {
    if CanSucceed(t, id) && !FailedBehind(t, id) {
      var statements := FinishProposal(t, id);
    } else {
      forall statements
        ensures !(id in Run(t, statements).jobs && Run(t, statements).jobs[id].state.Succeeded?)
      {
        if FailedBehind(t, id) { FailedBehindForever(t, statements, id); } else { StuckForever(t, statements, id); }
      }
    }
  }
}
