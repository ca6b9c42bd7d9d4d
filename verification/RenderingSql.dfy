/**
  The guards of `Rendering` against the text of the triggers and CHECK constraints that they
  model: joins and EXISTS over rows, column by column, in three-valued logic.
*/
module RenderingSql {
  import opened Assets
  import opened Basics
  import opened Releases
  import opened Rendering
  import opened Sql
  import Heads
  import Jobs

  // -------------------------------------------------------------------- derivative_jobs: the row

  /** The CHECKs of migrations 0009 and 0027. */
  predicate JobRowChecks(j: Jobs.Job) {
    var i := j.identity;
    var active := Of(j.state in {Jobs.Claimed, Jobs.Processing});
    var terminal := Of(j.state in {Jobs.Succeeded, Jobs.Failed, Jobs.Cancelled});
    && Passes(Eq(Some(|i.logicalKey|), Some(64))) && Passes(Eq(Some(|i.requestSha256|), Some(64)))
    && Passes(Le(Some(0), Some(j.attempts))) && Passes(Lt(Some(0), Some(j.maxAttempts)))
    && Passes(Le(Some(j.attempts), Some(j.maxAttempts))) && Passes(Lt(Some(0), Some(i.expectedOutputs)))
    && Passes(Lt(Some(0), Some(j.lockVersion)))
    && Passes(Any([All([active, Not(IsNull(j.leaseOwner)), Not(IsNull(j.leaseExpiresAt))]),
                   All([Not(active), IsNull(j.leaseOwner), IsNull(j.leaseExpiresAt)])]))
    && Passes(Any([All([Of(j.state == Jobs.RetryWait), Not(IsNull(j.retryAt))]),
                   All([Of(j.state != Jobs.RetryWait), IsNull(j.retryAt)])]))
    && Passes(Any([All([terminal, Not(IsNull(j.completedAt))]), All([Not(terminal), IsNull(j.completedAt)])]))
    && Passes(Any([Of(j.state != Jobs.Requested), Eq(Some(j.attempts), Some(0))]))
    && Passes(Any([Not(active), Lt(Some(0), Some(j.attempts))]))
    && Passes(Any([IsNull(j.claimedAt), Le(Some(i.requestedAt), j.claimedAt)]))
    && Passes(Any([IsNull(j.processingStartedAt), Le(Some(i.requestedAt), j.processingStartedAt)]))
    && Passes(Any([IsNull(j.completedAt), Le(Some(i.requestedAt), j.completedAt)]))
    && Passes(Any([Of(i.gates), Not(IsNull(i.revision))]))
  }

  lemma JobChecksAreSql(j: Jobs.Job)
    ensures Jobs.Checks(j) <==> JobRowChecks(j)
  {
  }

  // -------------------------------------------------------------------- derivative_jobs: INSERT

  /** The release of the version is current and where such a job may run: gating, or proposed by a head of the review. */
  predicate ReleaseFound(t: Tables, version: Id, revision: Option<Id>, gates: bool, task: Id) {
    exists v, r :: v in t.versions && r in t.releases && r == t.versions[v].release && v == version
      && t.releases[r].currentVersionNo == t.versions[v].no
      && (|| (gates && t.releases[r].phase == Rendering)
          || (!gates && t.releases[r].phase in {Rendering, ReadyToPublish, Publishing, Published}
              && exists h :: h in t.heads && t.heads[h].task == task && t.heads[h].version == version
                   && (t.heads[h].active.Some? || t.releases[r].phase != Rendering)
                   && Holds(Eq(t.heads[h].pending, revision))))
  }

  /** The SELECT of derivative_jobs_guard_insert in migration 0027 finds a row. */
  ghost predicate JobFound(t: Tables, i: Jobs.Identity) {
    exists s, c :: s in t.selections && c in t.recipes && s == i.selection && c == i.recipe
      && t.selections[s].version == i.version && t.recipes[c].version == i.version
      && t.recipes[c].expectedOutputs == i.expectedOutputs
      && ReleaseFound(t, i.version, i.revision, i.gates, t.selections[s].task)
  }

  /** The unique keys, two of them partial, and the foreign key of the revision. */
  predicate JobKeys(t: Tables, i: Jobs.Identity) {
    && (i.revision.None? || exists r :: r in t.revisions && Some(r) == i.revision)
    && forall j :: j in t.jobs ==>
         var o := t.jobs[j].identity;
         && o.logicalKey != i.logicalKey
         && !(o.revision.None? && i.revision.None? && (o.selection, o.recipe) == (i.selection, i.recipe))
         && !(o.revision.Some? && i.revision.Some? && (o.selection, o.recipe, o.revision) == (i.selection, i.recipe, i.revision))
  }

  lemma PlacedIsSql(t: Tables, i: Jobs.Identity)
    requires i.selection in t.selections
    ensures Placed(t, i) <==> ReleaseFound(t, i.version, i.revision, i.gates, t.selections[i.selection].task)
  {
    if Placed(t, i) && !i.gates {
      var r := t.versions[i.version].release;
      var h :| h in t.heads && Proposes(t.heads[h], !t.releases[r].phase.Rendering?, i, t.selections[i.selection].task);
      assert Holds(Eq(t.heads[h].pending, i.revision));
    }
    if ReleaseFound(t, i.version, i.revision, i.gates, t.selections[i.selection].task) && !i.gates {
      var r := t.versions[i.version].release;
      var h :| h in t.heads && t.heads[h].task == t.selections[i.selection].task && t.heads[h].version == i.version
               && (t.heads[h].active.Some? || t.releases[r].phase != Rendering) && Holds(Eq(t.heads[h].pending, i.revision));
      assert Proposes(t.heads[h], !t.releases[r].phase.Rendering?, i, t.selections[i.selection].task);
    }
  }

  /** INSERT of a job in its initial state. */
  lemma JobInsertIsSql(t: Tables, id: Id, job: Jobs.Job)
    ensures Execute(t, InsertJob(id, job)).Some? <==>
            && id !in t.jobs && job.state == Jobs.Requested
            && JobRowChecks(job) && JobKeys(t, job.identity) && JobFound(t, job.identity)
  {
    JobChecksAreSql(job);
    if job.identity.selection in t.selections { PlacedIsSql(t, job.identity); }
  }

  // -------------------------------------------------------------------- derivative_jobs: UPDATE

  /** The immutable columns. */
  predicate IdentityDiffers(a: Jobs.Identity, b: Jobs.Identity) {
    || a.selection != b.selection || a.recipe != b.recipe || a.revision != b.revision || a.gates != b.gates
    || a.version != b.version || a.logicalKey != b.logicalKey || a.payload != b.payload
    || a.requestSha256 != b.requestSha256 || a.expectedOutputs != b.expectedOutputs || a.priority != b.priority
    || a.availableAt != b.availableAt || a.requestedAt != b.requestedAt
  }

  predicate TransitionListed(from: Jobs.State, to: Jobs.State) {
    || (from in {Jobs.Requested, Jobs.RetryWait} && to in {Jobs.Claimed, Jobs.Cancelled})
    || (from == Jobs.Claimed && to in {Jobs.Claimed, Jobs.Processing, Jobs.RetryWait, Jobs.Failed, Jobs.Cancelled})
    || (from == Jobs.Processing && to in {Jobs.Claimed, Jobs.RetryWait, Jobs.Succeeded, Jobs.Failed, Jobs.Cancelled})
    || (from == Jobs.Failed && to == Jobs.RetryWait)
  }

  ghost predicate RearmRows(t: Tables, i: Jobs.Identity, c: Id, v: Id, r: Id) {
    && c in t.recipes && v in t.versions && r in t.releases && r == t.versions[v].release
    && c == i.recipe && v == i.version && t.recipes[c].version == i.version
    && |t.recipes[c].targets| == 1 && t.recipes[c].targets[0] == "full"
    && t.releases[r].currentVersionNo == t.versions[v].no && t.releases[r].phase == Rendering
  }

  /** The recipe renders exactly `full` and the release of the version is current and rendering. */
  ghost predicate RearmFound(t: Tables, i: Jobs.Identity) {
    exists c, v, r :: RearmRows(t, i, c, v, r)
  }

  /**
    The CASE expressions of derivative_jobs_guard_update in migration 0027, in their order, over the
    count of the job's outputs and the two EXISTS.
  */
  predicate RowRaises(was: Jobs.Job, now: Jobs.Job, outputs: int, rearmFound: bool, releaseFound: bool) {
    || was.state in {Jobs.Succeeded, Jobs.Cancelled} || now.lockVersion != was.lockVersion + 1
    || IdentityDiffers(was.identity, now.identity)
    || (was.maxAttempts != now.maxAttempts
        && !(was.state == Jobs.Failed && now.state == Jobs.RetryWait && now.maxAttempts > was.maxAttempts
             && now.maxAttempts <= 10 && now.maxAttempts >= was.attempts + 1))
    || !TransitionListed(was.state, now.state)
    || (now.state == Jobs.Claimed && now.attempts != was.attempts + 1)
    || (now.state != Jobs.Claimed && now.attempts != was.attempts)
    || (was.state == Jobs.Failed
        && (|| now.state != Jobs.RetryWait || was.errorCode == Some("output_object_conflict")
            || now.completedAt.Some? || now.errorCode.Some? || now.errorDetail.Some?
            || now.leaseOwner.Some? || now.leaseExpiresAt.Some? || now.retryAt.None?
            || now.maxAttempts <= was.maxAttempts || now.maxAttempts > 10 || now.maxAttempts < was.attempts + 1
            || !rearmFound))
    || Holds(All([Of(was.state in {Jobs.Claimed, Jobs.Processing}), Of(now.state == Jobs.Claimed),
                  Any([IsNull(was.leaseExpiresAt), Lt(now.claimedAt, was.leaseExpiresAt)])]))
    || (now.state == Jobs.Succeeded && outputs != was.identity.expectedOutputs)
    || (now.state == Jobs.Succeeded && !releaseFound)
  }

  ghost predicate JobUpdateRaises(t: Tables, id: Id, was: Jobs.Job, now: Jobs.Job) {
    RowRaises(was, now, |set o | o in t.outputs && t.outputs[o].job == id|, RearmFound(t, was.identity),
              exists s :: s in t.selections && s == was.identity.selection
                && ReleaseFound(t, was.identity.version, now.identity.revision, now.identity.gates, t.selections[s].task))
  }

  lemma RowGuardIsSql(was: Jobs.Job, now: Jobs.Job, s: Jobs.Surroundings)
    ensures Jobs.Accepted(was, now, s) <==> JobRowChecks(now) && !RowRaises(was, now, s.outputs, s.rearmable, s.finishable)
    ensures Jobs.Accepted(was, now, s) || !RowRaises(was, now, s.outputs, s.rearmable, s.finishable) ==> now.identity == was.identity
  {
    JobChecksAreSql(now);
  }

  lemma RearmIsSql(t: Tables, i: Jobs.Identity)
    ensures Rearmable(t, i) <==> RearmFound(t, i)
  {
    if RearmFound(t, i) {
      assert t.recipes[i.recipe].targets == ["full"];
    }
    if Rearmable(t, i) {
      assert RearmRows(t, i, i.recipe, i.version, t.versions[i.version].release);
    }
  }

  /** The row guard of `Jobs`, with what it looks up. */
  lemma JobGuardIsSql(t: Tables, id: Id, now: Jobs.Job)
    requires id in t.jobs
    ensures JobUpdateAdmitted(t, id, now) <==> JobRowChecks(now) && !JobUpdateRaises(t, id, t.jobs[id], now)
  {
    var was := t.jobs[id];
    RowGuardIsSql(was, now, Around(t, id));
    RearmIsSql(t, was.identity);
    assert OutputsOf(t, id) == set o | o in t.outputs && t.outputs[o].job == id;
    if was.identity.selection in t.selections { PlacedIsSql(t, was.identity); }
  }

  /** UPDATE of a job; its promotion never aborts it. */
  lemma JobUpdateIsSql(t: Tables, id: Id, now: Jobs.Job)
    requires id in t.jobs
    ensures Execute(t, UpdateJob(id, now)).Some? <==> JobRowChecks(now) && !JobUpdateRaises(t, id, t.jobs[id], now)
  {
    JobGuardIsSql(t, id, now);
    if JobUpdateAdmitted(t, id, now) { PromotionNeverAborts(t, id, now); }
  }

  // -------------------------------------------------------------------- derivative_jobs: the promotion

  /** A head of the selection's review and of the job's version. */
  predicate HeadOf(t: Tables, i: Jobs.Identity, s: Id, h: Id)
    requires s in t.selections && h in t.heads
  {
    s == i.selection && t.heads[h].task == t.selections[s].task && t.heads[h].version == i.version
  }

  /** The row `pending` of the NOT EXISTS in derivative_jobs_promote_release_after_success. */
  predicate Pending(t: Tables, version: Id, j: Id)
    requires j in t.jobs
  {
    var i := t.jobs[j].identity;
    && i.version == version && i.gates && t.jobs[j].state != Jobs.Succeeded
    && (|| (i.revision.None?
            && (|| (exists c :: c in t.recipes && c == i.recipe && exists x :: x in t.recipes[c].targets && x == "full")
                || !exists s, h :: s in t.selections && h in t.heads && HeadOf(t, i, s, h)))
        || (i.revision.Some?
            && exists s, h :: s in t.selections && h in t.heads && HeadOf(t, i, s, h)
                 && (Holds(Eq(t.heads[h].active, i.revision)) || Holds(Eq(t.heads[h].pending, i.revision)))))
  }

  lemma PendingIsSql(t: Tables, version: Id, j: Id)
    requires j in t.jobs
    ensures Pending(t, version, j) <==> HoldsBack(t, version, j) && !t.jobs[j].state.Succeeded?
  {
    var i := t.jobs[j].identity;
    if HasHead(t, i) {
      var h :| h in t.heads && t.heads[h].task == t.selections[i.selection].task && t.heads[h].version == i.version;
      assert HeadOf(t, i, i.selection, h);
    }
    if HasHeadAt(t, i) {
      var h :| h in t.heads && t.heads[h].task == t.selections[i.selection].task && t.heads[h].version == i.version
               && (t.heads[h].active == i.revision || t.heads[h].pending == i.revision);
      assert HeadOf(t, i, i.selection, h);
    }
  }

  /** The WHEN clause after the update of row `id`, in the tables with that update. */
  lemma PromotionIsSql(next: Tables, id: Id, was: Jobs.Job)
    requires id in next.jobs && was.state != Jobs.Succeeded
    ensures PromotionDue(next.jobs[id], next) <==>
            && was.state != Jobs.Succeeded && next.jobs[id].state == Jobs.Succeeded && next.jobs[id].identity.gates
            && !exists j :: j in next.jobs && Pending(next, next.jobs[id].identity.version, j)
  {
    forall j | j in next.jobs
      ensures Pending(next, next.jobs[id].identity.version, j) <==>
              HoldsBack(next, next.jobs[id].identity.version, j) && !next.jobs[j].state.Succeeded?
    {
      PendingIsSql(next, next.jobs[id].identity.version, j);
    }
  }

  // -------------------------------------------------------------------- recipes and outputs

  /** length(trim(text)) > 0. */
  predicate Trimmed(text: string) {
    exists c :: c in text && c != ' '
  }

  /** The ten copied columns of an asset are what the row says, none of them NULL. */
  predicate SameColumns(a: Asset, s: Storage) {
    && a.storage.Some?
    && var c := a.storage.value;
    && c.backend == s.backend && c.bucket == s.bucket && c.objectKey == s.objectKey && c.objectVersionId == s.objectVersionId
    && c.sha256 == s.sha256 && c.contentType == s.contentType && c.imageFormat == s.imageFormat
    && c.width == s.width && c.height == s.height && c.byteSize == s.byteSize
  }

  /** The SELECT of derivative_recipes_guard_insert in migration 0014. */
  predicate WatermarkFound(t: Tables, r: Recipe) {
    r.watermark.Some? && r.watermarkStorage.Some?
    && exists a :: a in t.assets && Some(a) == r.watermark
         && t.assets[a].kind == Kind.Derivative && t.assets[a].available && t.assets[a].watermark
         && SameColumns(t.assets[a], r.watermarkStorage.value)
         && r.watermarkStorage.value.contentType == "image/png" && r.watermarkStorage.value.imageFormat == "PNG"
  }

  /** The CHECKs of migration 0009 that read these columns. */
  predicate RecipeRowChecks(r: Recipe) {
    && r.expectedOutputs > 0 && |r.logicalKey| == 64 && |r.configSha256| == 64
    && (|| (r.watermark.None? && r.watermarkStorage.None?)
        || (r.watermark.Some? && r.watermarkStorage.Some? && |r.watermarkStorage.value.sha256| == 64
            && r.watermarkStorage.value.width > 0 && r.watermarkStorage.value.height > 0
            && r.watermarkStorage.value.byteSize > 0))
  }

  lemma RecipeInsertIsSql(t: Tables, id: Id, r: Recipe)
    ensures Execute(t, InsertRecipe(id, r)).Some? <==>
            && id !in t.recipes && RecipeRowChecks(r) && r.version in t.versions
            && (forall q :: q in t.recipes ==> t.recipes[q].logicalKey != r.logicalKey)
            && (r.watermark.Some? ==> WatermarkFound(t, r))
  {
  }

  /** The CHECKs of derivative_outputs. */
  predicate OutputRowChecks(o: Output) {
    && Trimmed(o.target) && |o.storage.sha256| == 64
    && Trimmed(o.storage.backend) && Trimmed(o.storage.bucket) && Trimmed(o.storage.objectKey)
    && Trimmed(o.storage.objectVersionId) && Trimmed(o.storage.contentType) && Trimmed(o.storage.imageFormat)
    && o.storage.width > 0 && o.storage.height > 0 && o.storage.byteSize > 0
    && Trimmed(o.recipeVersion)
  }

  /** The joined rows of derivative_outputs_guard_insert satisfy its WHERE. */
  ghost predicate OutputRows(t: Tables, o: Output, j: Id, c: Id, s: Id, v: Id, a: Id, l: Id) {
    && j in t.jobs && c in t.recipes && s in t.selections && v in t.versions && a in t.assets && l in t.lineage
    && j == o.job && c == t.jobs[j].identity.recipe && s == t.jobs[j].identity.selection
    && v == t.jobs[j].identity.version && a == o.asset && l == o.lineage
    && s == o.selection && c == o.recipe && t.jobs[j].state == Jobs.Processing
    && Holds(Lt(Some(o.recordedAt), t.jobs[j].leaseExpiresAt))
    && (exists x :: x in t.recipes[c].targets && x == o.target)
    && t.selections[s].asset == o.sourceAsset
    && t.assets[a].release == t.versions[v].release && t.assets[a].kind == Kind.Derivative && t.assets[a].available
    && SameColumns(t.assets[a], o.storage)
    && t.lineage[l].parent == t.selections[s].asset && t.lineage[l].child == a
    && t.lineage[l].relation == o.relation && t.lineage[l].relation == Derivation
    && t.lineage[l].recipeVersion == o.recipeVersion && t.lineage[l].recipeVersion == t.recipes[c].configSha256
  }

  ghost predicate OutputFound(t: Tables, o: Output) {
    exists j, c, s, v, a, l :: OutputRows(t, o, j, c, s, v, a, l)
  }

  lemma OutputInsertIsSql(t: Tables, id: Id, o: Output)
    ensures Execute(t, InsertOutput(id, o)).Some? <==>
            && id !in t.outputs && OutputRowChecks(o) && OutputFound(t, o)
            && (forall p :: p in t.outputs ==>
                  t.outputs[p].asset != o.asset && (t.outputs[p].job, t.outputs[p].target) != (o.job, o.target))
  {
    assert forall text :: Blank(text) <==> !Trimmed(text);
    if OutputAdmitted(t, id, o) {
      var i := t.jobs[o.job].identity;
      assert OutputRows(t, o, o.job, i.recipe, i.selection, i.version, o.asset, o.lineage);
    }
  }

  // -------------------------------------------------------------------- X revisions

  /** The foreign keys of a head: its review, its version, and both pointers with review and version. */
  predicate HeadKeys(t: Tables, h: Heads.Head) {
    forall pointer :: pointer in {h.active, h.pending} && pointer.Some? ==>
      exists r :: r in t.revisions && Some(r) == pointer && t.revisions[r].task == h.task && t.revisions[r].version == h.version
  }

  lemma HeadKeysAreSql(t: Tables, h: Heads.Head)
    ensures PointsAtOwn(t, h) <==> HeadKeys(t, h)
  {
  }

  /** The joined rows of x_teaser_revision_members_guard_insert satisfy its WHERE. */
  ghost predicate MemberRows(t: Tables, m: Member, v: Id, s: Id, c: Id) {
    && v in t.revisions && s in t.selections && c in t.recipes
    && v == m.revision && s == m.selection && c == m.recipe
    && t.revisions[v].task == m.task && t.revisions[v].version == m.version
    && t.selections[s].task == m.task && t.selections[s].version == m.version && t.selections[s].asset == m.sourceAsset
    && t.recipes[c].version == m.version && t.recipes[c].watermark == Some(t.revisions[v].watermark)
    && t.recipes[c].position == Some(m.position)
    && (|| (exists j :: j in t.jobs && m.job == Some(j) && t.jobs[j].identity.selection == m.selection
              && t.jobs[j].identity.recipe == m.recipe && t.jobs[j].identity.revision == Some(m.revision))
        || (exists o :: o in t.outputs && m.output == Some(o) && t.outputs[o].selection == m.selection
              && t.outputs[o].recipe == m.recipe && t.outputs[o].target == "x_teaser"))
  }

  ghost predicate MemberFound(t: Tables, m: Member) {
    exists v, s, c :: MemberRows(t, m, v, s, c)
  }

  lemma MemberGuardIsSql(t: Tables, m: Member)
    ensures MemberGuard(t, m) <==> MemberFound(t, m)
  {
    if MemberGuard(t, m) { assert MemberRows(t, m, m.revision, m.selection, m.recipe); }
  }

  /** INSERT of a member: the CHECKs, the unique keys and the guard. */
  lemma MemberInsertIsSql(t: Tables, id: Id, m: Member)
    ensures Execute(t, InsertMember(id, m)).Some? <==>
            && id !in t.members && MemberFound(t, m) && m.displayOrder > 0 && m.position in {TopLeft, TopRight, BottomLeft, BottomRight}
            && ((m.job.Some? && m.output.None?) || (m.job.None? && m.output.Some?))
            && forall n :: n in t.members ==>
                 && (t.members[n].revision, t.members[n].selection) != (m.revision, m.selection)
                 && (t.members[n].revision, t.members[n].displayOrder) != (m.revision, m.displayOrder)
  {
    MemberGuardIsSql(t, m);
  }

  /** INSERT of a revision. */
  lemma RevisionInsertIsSql(t: Tables, id: Id, r: Revision)
    ensures Execute(t, InsertRevision(id, r)).Some? <==>
            && id !in t.revisions && Passes(Lt(Some(0), Some(r.no)))
            && r.task in t.reviews && r.version in t.versions && r.watermark in t.assets
            && forall q :: q in t.revisions ==> (t.revisions[q].task, t.revisions[q].no) != (r.task, r.no)
  {
  }

  predicate HeadRowChecks(h: Heads.Head) {
    && Passes(Lt(Some(0), Some(h.lockVersion)))
    && Passes(Any([IsNull(h.active), IsNull(h.pending), Ne(h.active, h.pending)]))
  }

  /** INSERT and UPDATE of a head, the latter under the transition trigger. */
  lemma HeadStatementsAreSql(t: Tables, id: Id, h: Heads.Head)
    ensures Execute(t, InsertHead(id, h)).Some? <==>
            && id !in t.heads && HeadRowChecks(h) && HeadKeys(t, h) && h.task in t.reviews && h.version in t.versions
            && forall g :: g in t.heads ==> t.heads[g].task != h.task
    ensures id in t.heads ==>
            var was := t.heads[id];
            Execute(t, UpdateHead(id, h)).Some? <==>
            && HeadRowChecks(h) && HeadKeys(t, h)
            && h.task == was.task && h.version == was.version && h.lockVersion == was.lockVersion + 1
            && (|| (was.pending.None? && h.pending.Some? && h.active == was.active)
                || (was.pending.Some? && h.pending.None? && (h.active == was.pending || h.active == was.active)))
  {
    HeadKeysAreSql(t, h);
  }

  // -------------------------------------------------------------------- assets and lineage

  /** The unique key of the object, the CHECKs on the copied columns and the release, as far as the model has them. */
  predicate AssetRowSound(t: Tables, id: Id, a: Asset) {
    && (a.available ==> a.stored != None)
    && (a.storage.None?
        || (a.stored == Some(Object(a.storage.value.backend, a.storage.value.bucket, a.storage.value.objectKey))
            && a.storage.value.width > 0 && a.storage.value.height > 0 && a.storage.value.byteSize >= 0))
    && a.release in t.releases
    && (a.stored.None? || forall o :: o in t.assets && o != id && t.assets[o].stored.Some? ==>
          (t.assets[o].stored.value.backend, t.assets[o].stored.value.bucket, t.assets[o].stored.value.key)
          != (a.stored.value.backend, a.stored.value.bucket, a.stored.value.key))
  }

  lemma AssetPutIsSql(t: Tables, id: Id, a: Asset)
    ensures Execute(t, PutAsset(id, a)).Some? <==> AssetRowSound(t, id, a)
  {
  }

  /** The CHECK, the unique key and the foreign keys of asset_lineage, and the trigger that keeps recorded lineage. */
  lemma LineagePutIsSql(t: Tables, id: Id, l: Lineage)
    ensures Execute(t, PutLineage(id, l)).Some? <==>
            && l.parent != l.child && l.parent in t.assets && l.child in t.assets
            && (forall m :: m in t.lineage && m != id ==>
                  (t.lineage[m].parent, t.lineage[m].child, t.lineage[m].relation, t.lineage[m].recipeVersion)
                  != (l.parent, l.child, l.relation, l.recipeVersion))
            && !(id in t.lineage && exists o :: o in t.outputs && t.outputs[o].lineage == id)
  {
  }

  /** The keys of release_selections that this model repeats. */
  lemma SelectionInsertIsSql(t: Tables, id: Id, s: Selected)
    ensures Execute(t, InsertSelection(id, s)).Some? <==>
            && id !in t.selections && s.displayOrder > 0
            && s.task in t.reviews && s.version in t.versions && s.asset in t.assets
            && forall o :: o in t.selections ==>
                 && (t.selections[o].task, t.selections[o].asset) != (s.task, s.asset)
                 && (t.selections[o].task, t.selections[o].displayOrder) != (s.task, s.displayOrder)
  {
  }
}
