/**
  Releases that become ready without a promotion.  Only a gating success promotes (migration
  0027), so a head that lets go of the last unfinished gating job leaves its release rendering.
*/
module Readiness {
  import opened Assets
  import opened Basics
  import opened Releases
  import opened Rendering
  import Heads
  import Jobs

  /** The head belongs to the review and version of the job. */
  predicate Covers(t: Tables, h: Heads.Head, i: Jobs.Identity) {
    i.selection in t.selections && h.task == t.selections[i.selection].task && h.version == i.version
  }

  /** ... and one of its pointers is the revision of the job. */
  predicate PointsAt(t: Tables, h: Heads.Head, i: Jobs.Identity) {
    i.revision.Some? && Covers(t, h, i) && (h.active == i.revision || h.pending == i.revision)
  }

  /** A gating job of the version that has not succeeded. */
  predicate Unfinished(t: Tables, version: Id, job: Id)
    requires job in t.jobs
  {
    t.jobs[job].identity.version == version && t.jobs[job].identity.gates && !t.jobs[job].state.Succeeded?
  }

  /** A version is ready exactly when no unfinished gating job of it is relevant. */
  lemma ReadyWithoutUnfinished(t: Tables, version: Id)
    requires JobsSound(t)
    ensures ReadyVersion(t, version) <==>
            forall j :: j in t.jobs && Unfinished(t, version, j) ==> !Relevant(t, t.jobs[j].identity)
  {
    ReadyIsAllFinished(t, version);
    if AllFinished(t, version) {
      forall j | j in t.jobs && Unfinished(t, version, j)
        ensures !Relevant(t, t.jobs[j].identity)
      {
        assert !HoldsBack(t, version, j);
      }
    }
  }

  // -------------------------------------------------------------------- what a head decides

  /** The release renders the version, some gating job of it has succeeded, and all relevant ones have. */
  predicate Stranded(t: Tables, version: Id) {
    && CurrentIn(t.releases, t.versions, version, Rendering)
    && ReadyVersion(t, version)
    && exists j :: j in t.jobs && GatingSuccess(t, version, j)
  }

  predicate GatingSuccess(t: Tables, version: Id, job: Id)
    requires job in t.jobs
  {
    t.jobs[job].identity.version == version && t.jobs[job].identity.gates && t.jobs[job].state.Succeeded?
  }

  lemma PointedAt(t: Tables, i: Jobs.Identity)
    requires i.revision.Some?
    ensures HasHeadAt(t, i) <==> exists g :: g in t.heads && PointsAt(t, t.heads[g], i)
  {
    if HasHeadAt(t, i) {
      var g :| g in t.heads && t.heads[g].task == t.selections[i.selection].task && t.heads[g].version == i.version
               && (t.heads[g].active == i.revision || t.heads[g].pending == i.revision);
      assert PointsAt(t, t.heads[g], i);
    }
  }

  /** After a head update a job is relevant when the new row points at it, or when it was and the old row did not. */
  lemma RelevantAfterUpdate(t: Tables, id: Id, h: Heads.Head, i: Jobs.Identity)
    requires OneHeadPerTask(t.heads) && id in t.heads && h.task == t.heads[id].task && h.version == t.heads[id].version
    ensures Relevant(t.(heads := t.heads[id := h]), i) <==>
            PointsAt(t, h, i) || (Relevant(t, i) && !PointsAt(t, t.heads[id], i))
  {
    var next := t.(heads := t.heads[id := h]);
    if i.revision.None? {
      HeadStays(t, id, h, i);
    } else {
      PointedAt(t, i);
      PointedAt(next, i);
      forall g | g in next.heads
        ensures PointsAt(next, next.heads[g], i) <==> if g == id then PointsAt(t, h, i) else PointsAt(t, t.heads[g], i)
      {
      }
      assert id in next.heads;
      if PointsAt(t, t.heads[id], i) {
        forall g | g in t.heads && g != id
          ensures !PointsAt(t, t.heads[g], i)
        {
        }
      }
    }
  }

  lemma HeadStays(t: Tables, id: Id, h: Heads.Head, i: Jobs.Identity)
    requires id in t.heads && h.task == t.heads[id].task && h.version == t.heads[id].version
    ensures HasHead(t.(heads := t.heads[id := h]), i) <==> HasHead(t, i)
  {
    var next := t.(heads := t.heads[id := h]);
    forall g | g in t.heads
      ensures next.heads[g].task == t.heads[g].task && next.heads[g].version == t.heads[g].version
    {
    }
  }

  /** What an accepted head update changes of an unfinished job: it must be let go of and not be picked up. */
  predicate LetGo(t: Tables, was: Heads.Head, now: Heads.Head, i: Jobs.Identity) {
    !PointsAt(t, now, i) && (Relevant(t, i) ==> PointsAt(t, was, i))
  }

  /**
    An accepted head update leaves a version ready exactly when the new row points at no
    unfinished gating job of it and the old row pointed at every one that was relevant.  It
    never moves the release.
  */
  lemma HeadUpdateReadies(t: Tables, id: Id, h: Heads.Head, version: Id)
    requires Valid(t) && HeadUpdateAdmitted(t, id, h)
    ensures var next := Step(t, UpdateHead(id, h));
            && (ReadyVersion(next, version) <==>
                  forall j :: j in t.jobs && Unfinished(t, version, j) ==> LetGo(t, t.heads[id], h, t.jobs[j].identity))
            && next.releases == t.releases && next.promoted == t.promoted
  {
    var next := t.(heads := t.heads[id := h]);
    assert Step(t, UpdateHead(id, h)) == next;
    HeadKeepsValid(t, id, h);
    ReadyWithoutUnfinished(next, version);
    forall j | j in t.jobs
      ensures Unfinished(next, version, j) <==> Unfinished(t, version, j)
      ensures !Relevant(next, t.jobs[j].identity) <==> LetGo(t, t.heads[id], h, t.jobs[j].identity)
    {
      RelevantAfterUpdate(t, id, h, t.jobs[j].identity);
    }
  }

  lemma SuccessStays(t: Tables, next: Tables, version: Id)
    requires next.jobs == t.jobs
    ensures (exists j :: j in next.jobs && GatingSuccess(next, version, j)) <==>
            (exists j :: j in t.jobs && GatingSuccess(t, version, j))
  {
    forall j | j in t.jobs
      ensures GatingSuccess(next, version, j) <==> GatingSuccess(t, version, j)
    {
    }
  }

  /** So it leaves a ready version behind in rendering exactly under that condition. */
  lemma HeadUpdateStrands(t: Tables, id: Id, h: Heads.Head, version: Id)
    requires Valid(t) && HeadUpdateAdmitted(t, id, h)
    ensures Stranded(Step(t, UpdateHead(id, h)), version) <==>
            && CurrentIn(t.releases, t.versions, version, Rendering)
            && (exists j :: j in t.jobs && GatingSuccess(t, version, j))
            && forall j :: j in t.jobs && Unfinished(t, version, j) ==> LetGo(t, t.heads[id], h, t.jobs[j].identity)
  {
    var next := t.(heads := t.heads[id := h]);
    assert Step(t, UpdateHead(id, h)) == next;
    HeadUpdateReadies(t, id, h, version);
    SuccessStays(t, next, version);
  }

  // -------------------------------------------------------------------- an input

  function Render(key: char, targets: seq<Target>): Recipe {
    Recipe(Digest(key), 20, targets, 1, Digest('c'), None, None, None)
  }

  function Stored(kind: Kind, watermark: bool, key: string): Asset {
    Asset(70, kind, true, watermark, Some(ObjectOf(StoredUnder(key))), Some(StoredUnder(key)), None)
  }

  function Asked(recipe: Id, revision: Option<Id>, key: char): Jobs.Identity {
    Jobs.Identity(1, recipe, 20, revision, true, Digest(key), "", Digest('0'), 1, 0, 0, 0)
  }

  /** Version 20 renders: its full job 5 has succeeded, its X job 6 of the proposed revision 4 is requested. */
  function RenderingWithProposal(): Tables {
    Tables(
      map[1 := Selected(10, 20, 30, 1)],
      map[2 := Render('a', [Full]), 3 := Render('b', [XTeaser])],
      map[5 := Jobs.Job(Asked(2, None, 'a'), Jobs.Succeeded, 1, 3, 4, None, None, None, None, None, Some(0), None, None),
          6 := Jobs.Job(Asked(3, Some(4), 'b'), Jobs.Requested, 0, 3, 1, None, None, None, None, None, None, None, None)],
      map[9 := Output(5, 1, 2, Full, 40, 30, 50, StoredUnder("out"), Derivation, Digest('c'), 0)],
      map[50 := Lineage(30, 40, Derivation, Digest('c'))], map[4 := Revision(10, 20, 1, 60)],
      map[7 := Heads.Head(10, 20, None, Some(4), 1)],
      map[], {10},
      map[30 := Stored(RawMaster, false, "raw"), 40 := Stored(Kind.Derivative, false, "out"),
          60 := Stored(Kind.Derivative, true, "mark")],
      map[70 := Release(Rendering, 1, 1)], map[20 := Version(70, 1)], [])
  }

  /** Assets under three different keys. */
  lemma StoredApart(raw: Asset, out: Asset, mark: Asset)
    requires AssetChecks(raw) && AssetChecks(out) && AssetChecks(mark)
    requires raw.stored != out.stored && raw.stored != mark.stored && out.stored != mark.stored
    ensures AssetsSound(map[30 := raw, 40 := out, 60 := mark])
  {
  }

  lemma ProposalKeysSound()
    ensures var t := RenderingWithProposal();
            KeysSound(t.selections, t.recipes, t.lineage, t.reviews, t.assets, t.versions)
  {
    assert "raw" != "out" && "raw" != "mark" && "out" != "mark";
    StoredApart(Stored(RawMaster, false, "raw"), Stored(Kind.Derivative, false, "out"), Stored(Kind.Derivative, true, "mark"));
  }

  lemma ProposalJobsSound()
    ensures JobsSound(RenderingWithProposal())
  {
    var t := RenderingWithProposal();
    assert OutputsOf(t, 5) == {9};
    assert JobSound(t, 5) && JobSound(t, 6) && SealedDone(t, 5) && SealedDone(t, 6);
  }

  lemma ProposalReferencesSound()
    ensures ReferencesSound(RenderingWithProposal())
  {
    var t := RenderingWithProposal();
    assert 'f' in "full" && !Blank(Full);
    assert OutputSound(t, 9);
  }

  lemma RenderingWithProposalIsValid()
    ensures Valid(RenderingWithProposal())
  {
    ProposalKeysSound();
    ProposalJobsSound();
    ProposalReferencesSound();
  }

  lemma ProposalHoldsBack()
    ensures var t := RenderingWithProposal();
            !ReadyVersion(t, 20) && GatingSuccess(t, 20, 5) && PointsAt(t, t.heads[7], t.jobs[6].identity)
  {
    var t := RenderingWithProposal();
    assert PointsAt(t, t.heads[7], t.jobs[6].identity) && HasHeadAt(t, t.jobs[6].identity);
    assert HoldsBack(t, 20, 6);
  }

  lemma WithdrawalLetsGo()
    ensures var t, h := RenderingWithProposal(), Heads.Head(10, 20, None, None, 2);
            && HeadUpdateAdmitted(t, 7, h)
            && forall j :: j in t.jobs && Unfinished(t, 20, j) ==> LetGo(t, t.heads[7], h, t.jobs[j].identity)
  {
    ProposalHoldsBack();
  }

  /** A version that renders, had a gating success and is let go of is ready afterwards, but not promoted. */
  lemma LetGoStrands(t: Tables, id: Id, h: Heads.Head, version: Id, job: Id)
    requires Valid(t) && HeadUpdateAdmitted(t, id, h) && CurrentIn(t.releases, t.versions, version, Rendering)
    requires job in t.jobs && GatingSuccess(t, version, job)
    requires forall j :: j in t.jobs && Unfinished(t, version, j) ==> LetGo(t, t.heads[id], h, t.jobs[j].identity)
    ensures var next := Step(t, UpdateHead(id, h));
            Stranded(next, version) && next.releases == t.releases && next.promoted == t.promoted
  {
    HeadUpdateStrands(t, id, h, version);
    HeadUpdateReadies(t, id, h, version);
  }

  /** Withdrawing the proposal makes version 20 ready, but nothing promotes it. */
  lemma WithdrawnProposalStrands()
    ensures var t := RenderingWithProposal();
            var next := Step(t, UpdateHead(7, Heads.Head(10, 20, None, None, 2)));
            && Valid(t) && !ReadyVersion(t, 20)
            && Stranded(next, 20) && next.releases == t.releases && next.promoted == t.promoted
  {
    RenderingWithProposalIsValid();
    ProposalHoldsBack();
    WithdrawalLetsGo();
    LetGoStrands(RenderingWithProposal(), 7, Heads.Head(10, 20, None, None, 2), 20, 5);
  }

  /** A new head makes the jobs it points at relevant, and takes over those of its review that needed none. */
  predicate TakenOver(t: Tables, h: Heads.Head, i: Jobs.Identity) {
    if i.revision.Some? then !PointsAt(t, h, i) && !Relevant(t, i)
    else Relevant(t, i) ==> !FullTarget(t, i) && Covers(t, h, i)
  }

  lemma RelevantAfterInsert(t: Tables, id: Id, h: Heads.Head, i: Jobs.Identity)
    requires id !in t.heads
    ensures Relevant(t.(heads := t.heads[id := h]), i) <==> !TakenOver(t, h, i)
  {
    var next := t.(heads := t.heads[id := h]);
    assert forall g :: g in t.heads ==> g in next.heads && next.heads[g] == t.heads[g];
    assert id in next.heads && next.heads[id] == h;
    if i.revision.None? {
      assert HasHead(next, i) <==> HasHead(t, i) || Covers(t, h, i);
    } else {
      assert HasHeadAt(next, i) <==> HasHeadAt(t, i) || PointsAt(t, h, i);
    }
  }

  /** The same for the insert of a head. */
  lemma HeadInsertReadies(t: Tables, id: Id, h: Heads.Head, version: Id)
    requires Valid(t) && HeadInsertAdmitted(t, id, h)
    ensures var next := Step(t, InsertHead(id, h));
            && (ReadyVersion(next, version) <==>
                  forall j :: j in t.jobs && Unfinished(t, version, j) ==> TakenOver(t, h, t.jobs[j].identity))
            && next.releases == t.releases && next.promoted == t.promoted
  {
    var next := t.(heads := t.heads[id := h]);
    assert Step(t, InsertHead(id, h)) == next;
    HeadKeepsValid(t, id, h);
    ReadyWithoutUnfinished(next, version);
    forall j | j in t.jobs
      ensures Unfinished(next, version, j) <==> Unfinished(t, version, j)
      ensures !Relevant(next, t.jobs[j].identity) <==> TakenOver(t, h, t.jobs[j].identity)
    {
      RelevantAfterInsert(t, id, h, t.jobs[j].identity);
    }
  }

  lemma HeadInsertStrands(t: Tables, id: Id, h: Heads.Head, version: Id)
    requires Valid(t) && HeadInsertAdmitted(t, id, h)
    ensures Stranded(Step(t, InsertHead(id, h)), version) <==>
            && CurrentIn(t.releases, t.versions, version, Rendering)
            && (exists j :: j in t.jobs && GatingSuccess(t, version, j))
            && forall j :: j in t.jobs && Unfinished(t, version, j) ==> TakenOver(t, h, t.jobs[j].identity)
  {
    var next := t.(heads := t.heads[id := h]);
    assert Step(t, InsertHead(id, h)) == next;
    HeadInsertReadies(t, id, h, version);
    SuccessStays(t, next, version);
  }

  // -------------------------------------------------------------------- no other statement strands a release

  ghost predicate SomeSuccess(t: Tables, version: Id) {
    exists j :: j in t.jobs && GatingSuccess(t, version, j)
  }

  /** Relevance depends on selections, recipes and heads alone. */
  lemma RelevanceFrame(t: Tables, next: Tables, i: Jobs.Identity)
    requires next.selections == t.selections && next.recipes == t.recipes && next.heads == t.heads
    ensures Relevant(next, i) <==> Relevant(t, i)
  {
  }

  /** From the later to the earlier row of a job: it was there, or it does not count as finished. */
  predicate NotFinished(t: Tables, next: Tables, version: Id, job: Id)
    requires job in next.jobs
  {
    && (job in t.jobs ==> next.jobs[job].identity == t.jobs[job].identity)
    && (GatingSuccess(next, version, job) ==> job in t.jobs && GatingSuccess(t, version, job))
  }

  /** When no gating job of the version finishes, a version that is ready was ready. */
  lemma NothingFinished(t: Tables, next: Tables, version: Id)
    requires JobsSound(t) && JobsSound(next) && t.jobs.Keys <= next.jobs.Keys
    requires next.selections == t.selections && next.recipes == t.recipes && next.heads == t.heads
    requires forall j :: j in next.jobs ==> NotFinished(t, next, version, j)
    requires ReadyVersion(next, version) && SomeSuccess(next, version)
    ensures ReadyVersion(t, version) && SomeSuccess(t, version)
  {
    ReadyWithoutUnfinished(t, version);
    ReadyWithoutUnfinished(next, version);
    forall j | j in t.jobs && Unfinished(t, version, j)
      ensures !Relevant(t, t.jobs[j].identity)
    {
      assert NotFinished(t, next, version, j) && Unfinished(next, version, j);
      RelevanceFrame(t, next, t.jobs[j].identity);
    }
    var j :| j in next.jobs && GatingSuccess(next, version, j);
    assert NotFinished(t, next, version, j);
  }

  /** A new job is unfinished: it makes no version ready. */
  lemma JobInsertNeverStrands(t: Tables, id: Id, job: Jobs.Job, version: Id)
    requires Valid(t) && JobInsertAdmitted(t, id, job) && Stranded(t.(jobs := t.jobs[id := job]), version)
    ensures Stranded(t, version)
  {
    JobInsertKeepsValid(t, id, job);
    NothingFinished(t, t.(jobs := t.jobs[id := job]), version);
  }

  /** Nor does a job update that is no gating success of the version. */
  lemma UpdateFinishesNothing(t: Tables, id: Id, job: Jobs.Job, version: Id)
    requires JobsSound(t) && JobsSound(t.(jobs := t.jobs[id := job])) && JobUpdateAdmitted(t, id, job)
    requires !GatingSuccess(t.(jobs := t.jobs[id := job]), version, id)
    requires ReadyVersion(t.(jobs := t.jobs[id := job]), version) && SomeSuccess(t.(jobs := t.jobs[id := job]), version)
    ensures ReadyVersion(t, version) && SomeSuccess(t, version)
  {
    NothingFinished(t, t.(jobs := t.jobs[id := job]), version);
  }

  /** A release that still renders after a promotion is not the promoted one. */
  lemma SwapLeavesOthers(releases: ReleaseTable, versions: VersionTable, promoted: Id, swapped: ReleaseTable, version: Id)
    requires Swap(releases, versions, promoted, Rendering, ReadyToPublish) == Some(swapped)
    requires CurrentIn(swapped, versions, version, Rendering)
    ensures CurrentIn(releases, versions, version, Rendering) && version != promoted
  {
    SwapSucceeds(releases, versions, promoted, Rendering, ReadyToPublish);
  }

  /** The tables right after the update, before the AFTER trigger. */
  lemma StrandedBeforeTrigger(t: Tables, id: Id, job: Jobs.Job, version: Id)
    requires JobUpdateAdmitted(t, id, job) && Stranded(Step(t, UpdateJob(id, job)), version)
    ensures var updated := t.(jobs := t.jobs[id := job]);
            && ReadyVersion(updated, version) && SomeSuccess(updated, version)
            && CurrentIn(t.releases, t.versions, version, Rendering)
            && !(PromotionDue(job, updated) && version == job.identity.version)
  {
    var updated, next := t.(jobs := t.jobs[id := job]), Step(t, UpdateJob(id, job));
    OnlyReleasesFollow(t, id, job);
    ReadyFrame(updated, next, version);
    SuccessStays(updated, next, version);
    if PromotionDue(job, updated) {
      PromotionNeverAborts(t, id, job);
      SwapLeavesOthers(t.releases, t.versions, job.identity.version, next.releases, version);
    } else {
      NoPromotionEffect(t, id, job);
    }
  }

  /** A job update that would leave its release ready promotes it. */
  lemma JobUpdateNeverStrands(t: Tables, id: Id, job: Jobs.Job, version: Id)
    requires Valid(t) && JobUpdateAdmitted(t, id, job) && Stranded(Step(t, UpdateJob(id, job)), version)
    ensures Stranded(t, version)
  {
    var updated := t.(jobs := t.jobs[id := job]);
    StrandedBeforeTrigger(t, id, job, version);
    JobUpdateKeepsValid(t, id, job);
    ReadyIsAllFinished(updated, version);
    assert !GatingSuccess(updated, version, id);
    UpdateFinishesNothing(t, id, job, version);
  }

  /** The selection and the recipe of a sound job stay, so its relevance does. */
  lemma NeighbourRelevance(t: Tables, next: Tables, id: Id)
    requires id in t.jobs && JobSound(t, id) && next.heads == t.heads && Extends(t, next)
    ensures Relevant(next, t.jobs[id].identity) <==> Relevant(t, t.jobs[id].identity)
  {
    var i := t.jobs[id].identity;
    assert next.selections[i.selection] == t.selections[i.selection] && next.recipes[i.recipe] == t.recipes[i.recipe];
    assert FullTarget(next, i) <==> FullTarget(t, i);
    assert HasHead(next, i) <==> HasHead(t, i);
    assert HasHeadAt(next, i) <==> HasHeadAt(t, i);
  }

  /** Statements beside jobs, heads and releases keep readiness. */
  lemma NeighbourStrands(t: Tables, next: Tables, version: Id)
    requires JobsSound(t) && JobsSound(next) && next.jobs == t.jobs && next.heads == t.heads && Extends(t, next)
    requires next.releases == t.releases && next.versions == t.versions && Stranded(next, version)
    ensures Stranded(t, version)
  {
    ReadyWithoutUnfinished(t, version);
    ReadyWithoutUnfinished(next, version);
    SuccessStays(t, next, version);
    forall j | j in t.jobs
      ensures Unfinished(next, version, j) <==> Unfinished(t, version, j)
      ensures Relevant(next, t.jobs[j].identity) <==> Relevant(t, t.jobs[j].identity)
    {
      NeighbourRelevance(t, next, j);
    }
  }

  /** Only selections, recipes, outputs, revisions and rows the guards do not read differ. */
  ghost predicate NeighbourOf(t: Tables, next: Tables) {
    && Extends(t, next) && next.jobs == t.jobs && next.heads == t.heads
    && next.releases == t.releases && next.versions == t.versions
  }

  predicate Neighbour(s: Statement) {
    !s.InsertJob? && !s.UpdateJob? && !s.InsertHead? && !s.UpdateHead? && !s.PutRelease?
  }

  lemma RequestWritten(t: Tables, s: Statement)
    requires (s.InsertReview? || s.InsertSelection? || s.InsertRecipe? || s.InsertRevision?) && Admitted(t, s)
    ensures NeighbourOf(t, Written(t, s).value)
  {
  }

  lemma SupportWritten(t: Tables, s: Statement)
    requires (s.InsertOutput? || s.InsertMember? || s.PutAsset? || s.PutLineage?) && Admitted(t, s)
    ensures NeighbourOf(t, Written(t, s).value)
  {
  }

  lemma NeighbourWritten(t: Tables, s: Statement)
    requires Neighbour(s) && Admitted(t, s)
    ensures NeighbourOf(t, Written(t, s).value)
  {
    if s.InsertReview? || s.InsertSelection? || s.InsertRecipe? || s.InsertRevision? {
      RequestWritten(t, s);
    } else {
      SupportWritten(t, s);
    }
  }

  lemma NeighbourEffect(t: Tables, s: Statement)
    requires Neighbour(s)
    ensures NeighbourOf(t, Step(t, s))
  {
    if Admitted(t, s) { NeighbourWritten(t, s); }
  }

  /** Only a head, or an application that moves the release, ever leaves a ready version behind in rendering. */
  lemma OnlyHeadsAndReleasesStrand(t: Tables, s: Statement, version: Id)
    requires Valid(t) && Stranded(Step(t, s), version) && !Stranded(t, version)
    ensures s.InsertHead? || s.UpdateHead? || s.PutRelease?
  {
    if s.InsertJob? {
      if JobInsertAdmitted(t, s.id, s.job) {
        assert Step(t, s) == t.(jobs := t.jobs[s.id := s.job]);
        JobInsertNeverStrands(t, s.id, s.job, version);
      }
    } else if s.UpdateJob? {
      if JobUpdateAdmitted(t, s.id, s.job) { JobUpdateNeverStrands(t, s.id, s.job, version); }
    } else if !s.InsertHead? && !s.UpdateHead? && !s.PutRelease? {
      StepKeepsValid(t, s);
      NeighbourEffect(t, s);
      NeighbourStrands(t, Step(t, s), version);
    }
  }
}
