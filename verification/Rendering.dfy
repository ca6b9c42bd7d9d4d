/**
  Derivative jobs, outputs, X-teaser heads and the promotion of a release: the triggers of
  migrations 0009, 0026 and 0027 as guarded statements over tables.
*/
module Rendering {
  import opened Assets
  import opened Basics
  import opened Releases
  import Heads
  import Jobs

  // The strings that the triggers compare with; any other string is an Other.
  type Target = string
  const Full: Target := "full"
  const XTeaser: Target := "x_teaser"

  datatype Relation = Derivation | OtherRelation(name: string)
  datatype Position = TopLeft | TopRight | BottomLeft | BottomRight | OtherPosition(name: string)

  /** The columns of release_selections that these triggers read. */
  datatype Selected = Selected(task: Id, version: Id, asset: Id, displayOrder: int)

  /** `position` is the JSON path watermark.position of the configuration. */
  datatype Recipe = Recipe(
    logicalKey: string, version: Id, targets: seq<Target>, expectedOutputs: int, configSha256: string,
    watermark: Option<Id>, watermarkStorage: Option<Storage>, position: Option<Position>)

  datatype Output = Output(
    job: Id, selection: Id, recipe: Id, target: Target, asset: Id, sourceAsset: Id, lineage: Id,
    storage: Storage, relation: Relation, recipeVersion: string, recordedAt: int)

  datatype Lineage = Lineage(parent: Id, child: Id, relation: Relation, recipeVersion: string)

  datatype Revision = Revision(task: Id, version: Id, no: int, watermark: Id)

  datatype Member = Member(
    revision: Id, task: Id, version: Id, selection: Id, sourceAsset: Id, displayOrder: int, position: Position,
    recipe: Id, job: Option<Id>, output: Option<Id>)

  /** `reviews` are the ids of the review tasks; `promoted` is the history of the versions the trigger made ready to publish. */
  datatype Tables = Tables(
    selections: map<Id, Selected>,
    recipes: map<Id, Recipe>,
    jobs: map<Id, Jobs.Job>,
    outputs: map<Id, Output>,
    lineage: map<Id, Lineage>,
    revisions: map<Id, Revision>,
    heads: map<Id, Heads.Head>,
    members: map<Id, Member>,
    reviews: set<Id>,
    assets: AssetTable,
    releases: ReleaseTable,
    versions: VersionTable,
    promoted: seq<Id>)

  // -------------------------------------------------------------------- what the triggers look up

  function OutputsOf(t: Tables, job: Id): set<Id> {
    set o | o in t.outputs && t.outputs[o].job == job
  }

  predicate Proposes(h: Heads.Head, active: bool, i: Jobs.Identity, task: Id) {
    h.task == task && h.version == i.version && (h.active.Some? || active) && h.pending.Some? && h.pending == i.revision
  }

  /** The release of the job is current and in a phase where such a job may run. */
  predicate Placed(t: Tables, i: Jobs.Identity)
    requires i.selection in t.selections
  {
    && i.version in t.versions && t.versions[i.version].release in t.releases
    && var release := t.releases[t.versions[i.version].release];
    && release.currentVersionNo == t.versions[i.version].no
    && if i.gates then release.phase.Rendering?
       else && release.phase in {Rendering, ReadyToPublish, Publishing, Published}
            && exists h :: h in t.heads && Proposes(t.heads[h], !release.phase.Rendering?, i, t.selections[i.selection].task)
  }

  /** A rearm needs a recipe of exactly the full target, in a rendering release. */
  predicate Rearmable(t: Tables, i: Jobs.Identity) {
    && i.recipe in t.recipes && t.recipes[i.recipe].version == i.version
    && t.recipes[i.recipe].targets == [Full]
    && CurrentIn(t.releases, t.versions, i.version, Rendering)
  }

  function Around(t: Tables, id: Id): Jobs.Surroundings
    requires id in t.jobs
  {
    var i := t.jobs[id].identity;
    Jobs.Surroundings(|OutputsOf(t, id)|, Rearmable(t, i), i.selection in t.selections && Placed(t, i))
  }

  predicate FullTarget(t: Tables, i: Jobs.Identity) {
    i.recipe in t.recipes && Full in t.recipes[i.recipe].targets
  }

  /** A head of the job's task and version satisfies the condition on its pointers. */
  predicate HasHead(t: Tables, i: Jobs.Identity) {
    i.selection in t.selections
    && exists h :: h in t.heads && t.heads[h].task == t.selections[i.selection].task && t.heads[h].version == i.version
  }

  predicate HasHeadAt(t: Tables, i: Jobs.Identity) {
    i.selection in t.selections
    && exists h :: h in t.heads && t.heads[h].task == t.selections[i.selection].task && t.heads[h].version == i.version
                   && (t.heads[h].active == i.revision || t.heads[h].pending == i.revision)
  }

  /** Whether an unfinished gating job counts against readiness. */
  predicate Relevant(t: Tables, i: Jobs.Identity) {
    if i.revision.None? then FullTarget(t, i) || !HasHead(t, i) else HasHeadAt(t, i)
  }

  /** Every relevant gating job of the version has succeeded. */
  predicate AllFinished(t: Tables, version: Id) {
    forall j :: j in t.jobs && HoldsBack(t, version, j) ==> t.jobs[j].state.Succeeded?
  }

  predicate HoldsBack(t: Tables, version: Id, job: Id)
    requires job in t.jobs
  {
    t.jobs[job].identity.version == version && t.jobs[job].identity.gates && Relevant(t, t.jobs[job].identity)
  }

  // -------------------------------------------------------------------- statements

  datatype Statement =
    | InsertReview(id: Id)
    | InsertSelection(id: Id, selection: Selected)
    | InsertRecipe(id: Id, recipe: Recipe)
    | InsertJob(id: Id, job: Jobs.Job)
    | UpdateJob(id: Id, job: Jobs.Job)
    | InsertOutput(id: Id, output: Output)
    | InsertRevision(id: Id, revision: Revision)
    | InsertHead(id: Id, head: Heads.Head)
    | UpdateHead(id: Id, head: Heads.Head)
    | InsertMember(id: Id, member: Member)
    | PutAsset(id: Id, asset: Asset)
    | PutLineage(id: Id, link: Lineage)
    | PutRelease(id: Id, release: Release)

  /** The keys; the insert trigger of the review tables is not repeated here. */
  predicate SelectionAdmitted(t: Tables, id: Id, row: Selected) {
    && id !in t.selections && row.displayOrder > 0
    && row.task in t.reviews && row.version in t.versions && row.asset in t.assets
    && forall s :: s in t.selections && t.selections[s].task == row.task ==>
         t.selections[s].asset != row.asset && t.selections[s].displayOrder != row.displayOrder
  }

  predicate RecipeAdmitted(t: Tables, id: Id, r: Recipe) {
    && id !in t.recipes && r.expectedOutputs > 0 && r.version in t.versions
    && |r.logicalKey| == 64 && |r.configSha256| == 64
    && (forall q :: q in t.recipes ==> t.recipes[q].logicalKey != r.logicalKey)
    && (r.watermark.None? <==> r.watermarkStorage.None?)
    && (r.watermark.Some? ==>
          && r.watermark.value in t.assets
          && WatermarkCopy(t.assets[r.watermark.value], r.watermarkStorage.value))
  }

  /** The guard of migration 0014: an available PNG derivative of any release, kept as a watermark. */
  predicate WatermarkCopy(asset: Asset, copy: Storage) {
    && asset.kind.Derivative? && asset.available && asset.watermark && asset.storage == Some(copy)
    && copy.contentType == "image/png" && copy.imageFormat == "PNG"
    && PositiveSizes(copy) && |copy.sha256| == 64
  }

  /** Unique logical keys, and one job per selection, recipe and revision. */
  predicate JobKeyFree(t: Tables, i: Jobs.Identity) {
    forall j :: j in t.jobs ==>
      && t.jobs[j].identity.logicalKey != i.logicalKey
      && !(t.jobs[j].identity.selection == i.selection && t.jobs[j].identity.recipe == i.recipe
           && t.jobs[j].identity.revision == i.revision)
  }

  predicate JobInsertAdmitted(t: Tables, id: Id, job: Jobs.Job) {
    && id !in t.jobs && Jobs.Checks(job) && JobKeyFree(t, job.identity)
    // rows start requested: the source's INSERTs do, no trigger checks it
    && job.state.Requested?
    && var i := job.identity;
    && i.selection in t.selections && t.selections[i.selection].version == i.version
    && i.recipe in t.recipes && t.recipes[i.recipe].version == i.version
    && t.recipes[i.recipe].expectedOutputs == i.expectedOutputs
    && (i.revision.Some? ==> i.revision.value in t.revisions)
    && Placed(t, i)
  }

  predicate JobUpdateAdmitted(t: Tables, id: Id, job: Jobs.Job) {
    id in t.jobs && Jobs.Accepted(t.jobs[id], job, Around(t, id))
  }

  predicate PromotionDue(job: Jobs.Job, next: Tables) {
    job.state.Succeeded? && job.identity.gates && AllFinished(next, job.identity.version)
  }

  /** The update, then the AFTER trigger; None when its compare-and-swap fails. */
  function WithJob(t: Tables, id: Id, job: Jobs.Job): Option<Tables> {
    var next := t.(jobs := t.jobs[id := job]);
    if !PromotionDue(job, next) then Some(next)
    else
      var swapped := Swap(t.releases, t.versions, job.identity.version, Rendering, ReadyToPublish);
      if swapped.None? then None
      else Some(next.(releases := swapped.value, promoted := t.promoted + [job.identity.version]))
  }

  predicate OutputAdmitted(t: Tables, id: Id, o: Output) {
    && id !in t.outputs
    && (forall p :: p in t.outputs ==>
          t.outputs[p].asset != o.asset && !(t.outputs[p].job == o.job && t.outputs[p].target == o.target))
    && CopyChecks(o.storage) && !Blank(o.target) && !Blank(o.recipeVersion)
    && o.job in t.jobs && o.asset in t.assets && o.lineage in t.lineage
    && var job := t.jobs[o.job];
    && job.identity.recipe in t.recipes && job.identity.selection in t.selections && job.identity.version in t.versions
    && var recipe, selection := t.recipes[job.identity.recipe], t.selections[job.identity.selection];
    && job.identity.selection == o.selection && job.identity.recipe == o.recipe
    && job.state.Processing?
    && job.leaseExpiresAt.Some? && job.leaseExpiresAt.value > o.recordedAt
    && o.target in recipe.targets
    && selection.asset == o.sourceAsset
    && CopyOf(t.assets[o.asset], t.versions[job.identity.version].release, o.storage)
    && t.assets[o.asset].kind.Derivative?
    && t.lineage[o.lineage] == Lineage(selection.asset, o.asset, o.relation, o.recipeVersion)
    && o.relation.Derivation? && o.recipeVersion == recipe.configSha256
  }

  predicate RevisionAdmitted(t: Tables, id: Id, r: Revision) {
    && id !in t.revisions && r.no > 0
    && r.task in t.reviews && r.version in t.versions && r.watermark in t.assets
    && forall q :: q in t.revisions ==> !(t.revisions[q].task == r.task && t.revisions[q].no == r.no)
  }

  /** The foreign keys of the two pointers: they name revisions of the head's task and version. */
  predicate PointsAtOwn(t: Tables, h: Heads.Head) {
    && (h.active.Some? ==> h.active.value in t.revisions
                           && t.revisions[h.active.value].task == h.task && t.revisions[h.active.value].version == h.version)
    && (h.pending.Some? ==> h.pending.value in t.revisions
                            && t.revisions[h.pending.value].task == h.task && t.revisions[h.pending.value].version == h.version)
  }

  predicate HeadInsertAdmitted(t: Tables, id: Id, h: Heads.Head) {
    && id !in t.heads && Heads.Checks(h) && PointsAtOwn(t, h)
    && h.task in t.reviews && h.version in t.versions
    && forall g :: g in t.heads ==> t.heads[g].task != h.task
  }

  predicate HeadUpdateAdmitted(t: Tables, id: Id, h: Heads.Head) {
    id in t.heads && Heads.Guard(t.heads[id], h) && Heads.Checks(h) && PointsAtOwn(t, h)
  }

  /** x_teaser_revision_members_guard_insert. */
  predicate MemberGuard(t: Tables, m: Member) {
    && m.revision in t.revisions && m.selection in t.selections && m.recipe in t.recipes
    && var revision, selection, recipe := t.revisions[m.revision], t.selections[m.selection], t.recipes[m.recipe];
    && revision.task == m.task && revision.version == m.version
    && selection.task == m.task && selection.version == m.version && selection.asset == m.sourceAsset
    && recipe.version == m.version && recipe.watermark == Some(revision.watermark)
    && recipe.position == Some(m.position)
    && (|| (m.job.Some? && m.job.value in t.jobs
            && var i := t.jobs[m.job.value].identity;
               i.selection == m.selection && i.recipe == m.recipe && i.revision == Some(m.revision))
        || (m.output.Some? && m.output.value in t.outputs
            && var o := t.outputs[m.output.value];
               o.selection == m.selection && o.recipe == m.recipe && o.target == XTeaser))
  }

  predicate MemberChecks(t: Tables, m: Member) {
    && m.displayOrder > 0 && !m.position.OtherPosition? && (m.job.Some? <==> m.output.None?)
    && forall n :: n in t.members && t.members[n].revision == m.revision ==>
         t.members[n].selection != m.selection && t.members[n].displayOrder != m.displayOrder
  }

  /** An application does not return a release to rendering with a version that was promoted. */
  predicate NoReturn(t: Tables, id: Id, release: Release) {
    release.phase.Rendering? ==>
      forall v :: v in t.promoted && v in t.versions && t.versions[v].release == id ==>
        t.versions[v].no != release.currentVersionNo
  }

  /** The CHECK, the keys, and the trigger that keeps recorded lineage. */
  predicate LineageAdmitted(t: Tables, id: Id, row: Lineage) {
    && row.parent != row.child && row.parent in t.assets && row.child in t.assets
    && (forall l :: l in t.lineage && l != id ==> t.lineage[l] != row)
    && (id in t.lineage ==> forall o :: o in t.outputs ==> t.outputs[o].lineage != id)
  }

  /** The constraints and BEFORE triggers. */
  predicate Admitted(t: Tables, s: Statement) {
    match s
    case InsertReview(id) => id !in t.reviews
    case InsertSelection(id, row) => SelectionAdmitted(t, id, row)
    case InsertRecipe(id, row) => RecipeAdmitted(t, id, row)
    case InsertJob(id, job) => JobInsertAdmitted(t, id, job)
    case UpdateJob(id, job) => JobUpdateAdmitted(t, id, job)
    case InsertOutput(id, row) => OutputAdmitted(t, id, row)
    case InsertRevision(id, row) => RevisionAdmitted(t, id, row)
    case InsertHead(id, row) => HeadInsertAdmitted(t, id, row)
    case UpdateHead(id, row) => HeadUpdateAdmitted(t, id, row)
    case InsertMember(id, row) => id !in t.members && MemberGuard(t, row) && MemberChecks(t, row)
    case PutAsset(id, row) => AssetAdmitted(t.assets, id, row) && row.release in t.releases
    case PutLineage(id, row) => LineageAdmitted(t, id, row)
    case PutRelease(id, row) => NoReturn(t, id, row)
  }

  /** The rows that are written, AFTER trigger included. */
  function Written(t: Tables, s: Statement): Option<Tables> {
    match s
    case InsertReview(id) => Some(t.(reviews := t.reviews + {id}))
    case InsertSelection(id, row) => Some(t.(selections := t.selections[id := row]))
    case InsertRecipe(id, row) => Some(t.(recipes := t.recipes[id := row]))
    case InsertJob(id, job) => Some(t.(jobs := t.jobs[id := job]))
    case UpdateJob(id, job) => WithJob(t, id, job)
    case InsertOutput(id, row) => Some(t.(outputs := t.outputs[id := row]))
    case InsertRevision(id, row) => Some(t.(revisions := t.revisions[id := row]))
    case InsertHead(id, row) => Some(t.(heads := t.heads[id := row]))
    case UpdateHead(id, row) => Some(t.(heads := t.heads[id := row]))
    case InsertMember(id, row) => Some(t.(members := t.members[id := row]))
    case PutAsset(id, row) => Some(t.(assets := t.assets[id := row]))
    case PutLineage(id, row) => Some(t.(lineage := t.lineage[id := row]))
    case PutRelease(id, row) => Some(t.(releases := t.releases[id := row]))
  }

  /** None when the statement aborts. */
  function Execute(t: Tables, s: Statement): Option<Tables> {
    if Admitted(t, s) then Written(t, s) else None
  }

  function Step(t: Tables, s: Statement): Tables {
    var next := Execute(t, s);
    if next.Some? then next.value else t
  }

  lemma StepWrites(t: Tables, s: Statement)
    ensures Step(t, s) == t || Written(t, s) == Some(Step(t, s))
  {
  }

  function Run(t: Tables, statements: seq<Statement>): Tables {
    if statements == [] then t else Step(Run(t, statements[..|statements| - 1]), statements[|statements| - 1])
  }

  // -------------------------------------------------------------------- the invariant

  predicate JobSound(t: Tables, id: Id)
    requires id in t.jobs
  {
    var job := t.jobs[id];
    var i := job.identity;
    && Jobs.Plausible(job)
    && i.selection in t.selections && t.selections[i.selection].version == i.version
    && i.recipe in t.recipes && t.recipes[i.recipe].expectedOutputs == i.expectedOutputs
    && t.recipes[i.recipe].version == i.version
    && (job.state.Succeeded? ==> |OutputsOf(t, id)| == i.expectedOutputs)
  }

  predicate OutputSound(t: Tables, id: Id)
    requires id in t.outputs
  {
    var o := t.outputs[id];
    && o.job in t.jobs
    && o.recipe == t.jobs[o.job].identity.recipe && o.selection == t.jobs[o.job].identity.selection
    && o.recipe in t.recipes && o.target in t.recipes[o.recipe].targets
    && !Blank(o.target) && !Blank(t.recipes[o.recipe].configSha256)
  }

  /** Two outputs of a job have different targets. */
  predicate TargetsDistinct(outputs: map<Id, Output>) {
    forall o, p :: o in outputs && p in outputs && outputs[o].job == outputs[p].job && outputs[o].target == outputs[p].target ==> o == p
  }

  /** A gating job outside any X revision whose recipe renders the full target: relevant under every head. */
  predicate Sealed(t: Tables, i: Jobs.Identity) {
    i.gates && i.revision.None? && FullTarget(t, i)
  }

  predicate SealedDone(t: Tables, id: Id)
    requires id in t.jobs
  {
    t.jobs[id].identity.version in t.promoted && Sealed(t, t.jobs[id].identity) ==> t.jobs[id].state.Succeeded?
  }

  /** No promoted version is current in a rendering release, and none was promoted twice. */
  ghost predicate PromotedLeft(t: Tables) {
    && (forall v :: v in t.promoted ==> !CurrentIn(t.releases, t.versions, v, Rendering))
    && (forall i, j :: 0 <= i < j < |t.promoted| ==> t.promoted[i] != t.promoted[j])
  }

  ghost predicate JobsSound(t: Tables) {
    forall id :: id in t.jobs ==> JobSound(t, id) && SealedDone(t, id)
  }

  /** Outputs, head pointers and members agree with the rows they name. */
  ghost predicate ReferencesSound(t: Tables) {
    && (forall id :: id in t.outputs ==> OutputSound(t, id))
    && (forall h :: h in t.heads ==> PointsAtOwn(t, t.heads[h]) && Heads.Checks(t.heads[h]))
    && (forall m :: m in t.members ==> MemberGuard(t, t.members[m]))
  }

  predicate OneHeadPerTask(heads: map<Id, Heads.Head>) {
    forall g, h :: g in heads && h in heads && g != h ==> heads[g].task != heads[h].task
  }

  /** Selections, lineage and recipes name rows that exist, and the stored objects of assets differ. */
  ghost predicate KeysSound(selections: map<Id, Selected>, recipes: map<Id, Recipe>, lineage: map<Id, Lineage>,
                            reviews: set<Id>, assets: AssetTable, versions: VersionTable)
  {
    && AssetsSound(assets)
    && (forall s {:trigger SelectionKeyed(selections[s], reviews, assets, versions)} ::
          s in selections ==> SelectionKeyed(selections[s], reviews, assets, versions))
    && (forall l {:trigger LineageKeyed(lineage[l], assets)} :: l in lineage ==> LineageKeyed(lineage[l], assets))
    && (forall r {:trigger RecipeKeyed(recipes[r], assets)} :: r in recipes ==> RecipeKeyed(recipes[r], assets))
  }

  predicate SelectionKeyed(row: Selected, reviews: set<Id>, assets: AssetTable, versions: VersionTable) {
    row.asset in assets && row.task in reviews && row.version in versions
  }

  predicate LineageKeyed(row: Lineage, assets: AssetTable) {
    row.parent in assets && row.child in assets
  }

  predicate RecipeKeyed(row: Recipe, assets: AssetTable) {
    row.watermark.Some? ==> row.watermark.value in assets
  }

  /** Rows may be added while what they name stays. */
  lemma KeysGrow(t: Tables, next: Tables)
    requires KeysSound(t.selections, t.recipes, t.lineage, t.reviews, t.assets, t.versions) && AssetsSound(next.assets)
    requires t.assets.Keys <= next.assets.Keys && t.reviews <= next.reviews && next.versions == t.versions
    requires forall s :: s in next.selections && !(s in t.selections && next.selections[s] == t.selections[s]) ==>
               SelectionKeyed(next.selections[s], next.reviews, next.assets, next.versions)
    requires forall l :: l in next.lineage && !(l in t.lineage && next.lineage[l] == t.lineage[l]) ==>
               LineageKeyed(next.lineage[l], next.assets)
    requires forall r :: r in next.recipes && !(r in t.recipes && next.recipes[r] == t.recipes[r]) ==>
               RecipeKeyed(next.recipes[r], next.assets)
    ensures KeysSound(next.selections, next.recipes, next.lineage, next.reviews, next.assets, next.versions)
  {
    forall s | s in next.selections
      ensures SelectionKeyed(next.selections[s], next.reviews, next.assets, next.versions)
    {
      assert s in t.selections ==> SelectionKeyed(t.selections[s], t.reviews, t.assets, t.versions);
    }
    forall l | l in next.lineage
      ensures LineageKeyed(next.lineage[l], next.assets)
    {
      assert l in t.lineage ==> LineageKeyed(t.lineage[l], t.assets);
    }
    forall r | r in next.recipes
      ensures RecipeKeyed(next.recipes[r], next.assets)
    {
      assert r in t.recipes ==> RecipeKeyed(t.recipes[r], t.assets);
    }
  }

  ghost predicate Valid(t: Tables) {
    && JobsSound(t) && ReferencesSound(t) && TargetsDistinct(t.outputs) && PromotedLeft(t) && OneHeadPerTask(t.heads)
    && KeysSound(t.selections, t.recipes, t.lineage, t.reviews, t.assets, t.versions)
  }

  // -------------------------------------------------------------------- every statement keeps it

  /** Rows stay; a job keeps its identity. */
  ghost predicate Extends(t: Tables, next: Tables) {
    && (forall k :: k in t.selections ==> k in next.selections && next.selections[k] == t.selections[k])
    && (forall k :: k in t.recipes ==> k in next.recipes && next.recipes[k] == t.recipes[k])
    && (forall k :: k in t.revisions ==> k in next.revisions && next.revisions[k] == t.revisions[k])
    && (forall k :: k in t.outputs ==> k in next.outputs && next.outputs[k] == t.outputs[k])
    && (forall k :: k in t.jobs ==> k in next.jobs && next.jobs[k].identity == t.jobs[k].identity)
  }

  lemma JobFrame(t: Tables, next: Tables, id: Id)
    requires Extends(t, next) && id in t.jobs && JobSound(t, id) && next.jobs[id] == t.jobs[id]
    requires OutputsOf(next, id) == OutputsOf(t, id)
    ensures JobSound(next, id)
  {
  }

  lemma SealedFrame(t: Tables, next: Tables, id: Id)
    requires Extends(t, next) && id in t.jobs && JobSound(t, id) && SealedDone(t, id)
    requires next.jobs[id] == t.jobs[id] && next.promoted == t.promoted
    ensures SealedDone(next, id)
  {
  }

  /** Jobs stay sound while neither they nor the outputs change. */
  lemma JobsFrame(t: Tables, next: Tables)
    requires JobsSound(t) && Extends(t, next)
    requires next.jobs == t.jobs && next.outputs == t.outputs && next.promoted == t.promoted
    ensures JobsSound(next)
  {
    forall id | id in next.jobs
      ensures JobSound(next, id) && SealedDone(next, id)
    {
      assert OutputsOf(next, id) == OutputsOf(t, id);
      JobFrame(t, next, id);
      SealedFrame(t, next, id);
    }
  }

  lemma MemberStays(t: Tables, next: Tables, m: Member)
    requires Extends(t, next) && MemberGuard(t, m)
    ensures MemberGuard(next, m)
  {
  }

  /** References stay sound while the rows that make them do not change. */
  lemma ReferencesFrame(t: Tables, next: Tables)
    requires ReferencesSound(t) && Extends(t, next)
    requires next.outputs == t.outputs && next.heads == t.heads && next.members == t.members
    ensures ReferencesSound(next)
  {
    forall m | m in next.members
      ensures MemberGuard(next, next.members[m])
    {
      MemberStays(t, next, t.members[m]);
    }
  }

  /** Selections, recipes, revisions, assets and lineage grow beside the rest. */
  lemma NeighboursKeepValid(t: Tables, next: Tables)
    requires Valid(t) && Extends(t, next)
    requires next.jobs == t.jobs && next.outputs == t.outputs && next.heads == t.heads && next.members == t.members
    requires next.releases == t.releases && next.versions == t.versions && next.promoted == t.promoted
    requires KeysSound(next.selections, next.recipes, next.lineage, next.reviews, next.assets, next.versions)
    ensures Valid(next)
  {
    JobsFrame(t, next);
    ReferencesFrame(t, next);
  }

  lemma NewHeadSound(t: Tables, id: Id, h: Heads.Head)
    requires ReferencesSound(t) && PointsAtOwn(t, h) && Heads.Checks(h)
    ensures ReferencesSound(t.(heads := t.heads[id := h]))
  {
    var next := t.(heads := t.heads[id := h]);
    forall m | m in next.members
      ensures MemberGuard(next, next.members[m])
    {
      MemberStays(t, next, t.members[m]);
    }
  }

  lemma HeadKeepsValid(t: Tables, id: Id, h: Heads.Head)
    requires Valid(t) && PointsAtOwn(t, h) && Heads.Checks(h)
    requires forall g :: g in t.heads && g != id ==> t.heads[g].task != h.task
    ensures Valid(t.(heads := t.heads[id := h]))
  {
    JobsFrame(t, t.(heads := t.heads[id := h]));
    NewHeadSound(t, id, h);
  }

  lemma NewMemberSound(t: Tables, id: Id, row: Member)
    requires ReferencesSound(t) && MemberGuard(t, row)
    ensures ReferencesSound(t.(members := t.members[id := row]))
  {
    var next := t.(members := t.members[id := row]);
    forall m | m in next.members
      ensures MemberGuard(next, next.members[m])
    {
      MemberStays(t, next, next.members[m]);
    }
  }

  lemma MemberKeepsValid(t: Tables, id: Id, row: Member)
    requires Valid(t) && MemberGuard(t, row)
    ensures Valid(t.(members := t.members[id := row]))
  {
    JobsFrame(t, t.(members := t.members[id := row]));
    NewMemberSound(t, id, row);
  }

  /** A new job is not a sealed job of a promoted version: gating jobs need a rendering release. */
  lemma NewJobSound(t: Tables, id: Id, job: Jobs.Job)
    requires PromotedLeft(t) && ReferencesSound(t) && JobInsertAdmitted(t, id, job)
    ensures JobSound(t.(jobs := t.jobs[id := job]), id) && SealedDone(t.(jobs := t.jobs[id := job]), id)
  {
    if job.identity.gates {
      assert CurrentIn(t.releases, t.versions, job.identity.version, Rendering);
    }
  }

  /** All jobs but one are as they were. */
  lemma OtherJobsFrame(t: Tables, next: Tables, id: Id)
    requires JobsSound(t) && Extends(t, next) && next.promoted == t.promoted
    requires forall j :: j in next.jobs && j != id ==> j in t.jobs && next.jobs[j] == t.jobs[j]
    requires forall o :: o in next.outputs && (o !in t.outputs || t.outputs[o] != next.outputs[o]) ==> next.outputs[o].job == id
    requires id in next.jobs && JobSound(next, id) && SealedDone(next, id)
    ensures JobsSound(next)
  {
    forall j | j in next.jobs && j != id
      ensures JobSound(next, j) && SealedDone(next, j)
    {
      assert OutputsOf(next, j) == OutputsOf(t, j);
      JobFrame(t, next, j);
      SealedFrame(t, next, j);
    }
  }

  lemma JobInsertKeepsValid(t: Tables, id: Id, job: Jobs.Job)
    requires Valid(t) && JobInsertAdmitted(t, id, job)
    ensures Valid(t.(jobs := t.jobs[id := job]))
  {
    var next := t.(jobs := t.jobs[id := job]);
    NewJobSound(t, id, job);
    OtherJobsFrame(t, next, id);
    ReferencesFrame(t, next);
  }

  lemma NewOutputSound(t: Tables, id: Id, o: Output)
    requires OutputAdmitted(t, id, o) && JobsSound(t) && TargetsDistinct(t.outputs)
    ensures var next := t.(outputs := t.outputs[id := o]);
            && Extends(t, next) && OutputSound(next, id) && TargetsDistinct(next.outputs)
            && o.job in t.jobs && JobSound(next, o.job) && SealedDone(next, o.job)
  {
    var next := t.(outputs := t.outputs[id := o]);
    assert JobSound(t, o.job) && SealedDone(t, o.job);
    SealedFrame(t, next, o.job);
  }

  lemma OutputInsertKeepsValid(t: Tables, id: Id, o: Output)
    requires Valid(t) && OutputAdmitted(t, id, o)
    ensures Valid(t.(outputs := t.outputs[id := o]))
  {
    NewOutputSound(t, id, o);
    OutputKeepsJobs(t, id, o);
    ReferencesWithOutput(t, id, o);
  }

  lemma OutputKeepsJobs(t: Tables, id: Id, o: Output)
    requires JobsSound(t) && TargetsDistinct(t.outputs) && OutputAdmitted(t, id, o)
    ensures JobsSound(t.(outputs := t.outputs[id := o]))
  {
    NewOutputSound(t, id, o);
    OtherJobsFrame(t, t.(outputs := t.outputs[id := o]), o.job);
  }

  lemma ReferencesWithOutput(t: Tables, id: Id, o: Output)
    requires ReferencesSound(t) && id !in t.outputs && OutputSound(t.(outputs := t.outputs[id := o]), id)
    ensures ReferencesSound(t.(outputs := t.outputs[id := o]))
  {
    var next := t.(outputs := t.outputs[id := o]);
    forall m | m in next.members
      ensures MemberGuard(next, next.members[m])
    {
      MemberStays(t, next, t.members[m]);
    }
  }

  lemma ReleaseMoveKeepsValid(t: Tables, id: Id, release: Release)
    requires Valid(t) && NoReturn(t, id, release)
    ensures Valid(t.(releases := t.releases[id := release]))
  {
    var next := t.(releases := t.releases[id := release]);
    JobsFrame(t, next);
    ReferencesFrame(t, next);
    forall v | v in t.promoted
      ensures !CurrentIn(next.releases, t.versions, v, Rendering)
    {
      assert !CurrentIn(t.releases, t.versions, v, Rendering);
    }
  }

  /** An accepted update keeps the job sound. */
  lemma UpdatedJobSound(t: Tables, id: Id, job: Jobs.Job)
    requires JobsSound(t) && JobUpdateAdmitted(t, id, job)
    ensures var next := t.(jobs := t.jobs[id := job]);
            Extends(t, next) && JobSound(next, id) && SealedDone(next, id)
  {
    var next := t.(jobs := t.jobs[id := job]);
    assert JobSound(t, id) && SealedDone(t, id);
    assert OutputsOf(next, id) == OutputsOf(t, id);
    Jobs.UpdateDecreasesMeasure(t.jobs[id], job, Around(t, id));
  }

  lemma JobUpdateKeepsValid(t: Tables, id: Id, job: Jobs.Job)
    requires Valid(t) && JobUpdateAdmitted(t, id, job)
    ensures Valid(t.(jobs := t.jobs[id := job]))
  {
    var next := t.(jobs := t.jobs[id := job]);
    UpdatedJobSound(t, id, job);
    OtherJobsFrame(t, next, id);
    ReferencesFrame(t, next);
  }

  /** The release of a promoted version leaves rendering, and it was not promoted before. */
  lemma SwapKeepsPromotedLeft(t: Tables, version: Id, swapped: ReleaseTable)
    requires PromotedLeft(t) && Swap(t.releases, t.versions, version, Rendering, ReadyToPublish) == Some(swapped)
    ensures PromotedLeft(t.(releases := swapped, promoted := t.promoted + [version]))
    ensures version !in t.promoted
  {
    SwapSucceeds(t.releases, t.versions, version, Rendering, ReadyToPublish);
    assert CurrentIn(t.releases, t.versions, version, Rendering);
    forall v | v in t.promoted + [version]
      ensures !CurrentIn(swapped, t.versions, v, Rendering)
    {
      assert v in t.promoted ==> !CurrentIn(t.releases, t.versions, v, Rendering);
    }
  }

  /** Promotion seals the version: every full gating job outside X revisions has succeeded. */
  lemma PromotionKeepsValid(t: Tables, version: Id, swapped: ReleaseTable)
    requires Valid(t) && AllFinished(t, version)
    requires Swap(t.releases, t.versions, version, Rendering, ReadyToPublish) == Some(swapped)
    ensures Valid(t.(releases := swapped, promoted := t.promoted + [version]))
  {
    var next := t.(releases := swapped, promoted := t.promoted + [version]);
    SwapKeepsPromotedLeft(t, version, swapped);
    ReferencesFrame(t, next);
    PromotionKeepsJobs(t, version, swapped);
  }

  lemma PromotionKeepsJobs(t: Tables, version: Id, swapped: ReleaseTable)
    requires JobsSound(t) && AllFinished(t, version)
    ensures JobsSound(t.(releases := swapped, promoted := t.promoted + [version]))
  {
    var next := t.(releases := swapped, promoted := t.promoted + [version]);
    forall j | j in next.jobs
      ensures JobSound(next, j) && SealedDone(next, j)
    {
      assert OutputsOf(next, j) == OutputsOf(t, j);
      JobFrame(t, next, j);
      assert SealedDone(t, j);
      if t.jobs[j].identity.version == version && Sealed(t, t.jobs[j].identity) {
        assert HoldsBack(t, version, j);
      }
    }
  }

  lemma WithJobKeepsValid(t: Tables, id: Id, job: Jobs.Job)
    requires Valid(t) && JobUpdateAdmitted(t, id, job) && WithJob(t, id, job).Some?
    ensures Valid(WithJob(t, id, job).value)
  {
    JobUpdateKeepsValid(t, id, job);
    var updated := t.(jobs := t.jobs[id := job]);
    if PromotionDue(job, updated) {
      PromotionKeepsValid(updated, job.identity.version, WithJob(t, id, job).value.releases);
    }
  }

  lemma HeadStatementKeepsValid(t: Tables, s: Statement)
    requires Valid(t) && (s.InsertHead? || s.UpdateHead?)
    ensures Valid(Step(t, s))
  {
    if Execute(t, s).Some? {
      match s
      case InsertHead(id, row) =>
        assert Step(t, s) == t.(heads := t.heads[id := row]);
        HeadKeepsValid(t, id, row);
      case UpdateHead(id, row) =>
        assert Step(t, s) == t.(heads := t.heads[id := row]);
        HeadKeepsValid(t, id, row);
    }
  }

  lemma RevisionOrMemberKeepsValid(t: Tables, s: Statement)
    requires Valid(t) && (s.InsertRevision? || s.InsertMember?)
    ensures Valid(Step(t, s))
  {
    if Execute(t, s).Some? {
      match s
      case InsertRevision(id, row) =>
        assert Step(t, s) == t.(revisions := t.revisions[id := row]);
        NeighboursKeepValid(t, Step(t, s));
      case InsertMember(id, row) =>
        assert Step(t, s) == t.(members := t.members[id := row]);
        MemberKeepsValid(t, id, row);
    }
  }

  lemma SelectionKeepsValid(t: Tables, id: Id, row: Selected)
    requires Valid(t) && SelectionAdmitted(t, id, row)
    ensures Valid(t.(selections := t.selections[id := row]))
  {
    KeysGrow(t, t.(selections := t.selections[id := row]));
    NeighboursKeepValid(t, t.(selections := t.selections[id := row]));
  }

  lemma RecipeKeepsValid(t: Tables, id: Id, row: Recipe)
    requires Valid(t) && RecipeAdmitted(t, id, row)
    ensures Valid(t.(recipes := t.recipes[id := row]))
  {
    KeysGrow(t, t.(recipes := t.recipes[id := row]));
    NeighboursKeepValid(t, t.(recipes := t.recipes[id := row]));
  }

  lemma SelectionOrRecipeKeepsValid(t: Tables, s: Statement)
    requires Valid(t) && (s.InsertSelection? || s.InsertRecipe?)
    ensures Valid(Step(t, s))
  {
    if Execute(t, s).Some? {
      match s
      case InsertSelection(id, row) => SelectionKeepsValid(t, id, row);
      case InsertRecipe(id, row) => RecipeKeepsValid(t, id, row);
    }
  }

  lemma AssetKeepsValid(t: Tables, id: Id, row: Asset)
    requires Valid(t) && AssetAdmitted(t.assets, id, row)
    ensures Valid(t.(assets := t.assets[id := row]))
  {
    PutKeepsSound(t.assets, id, row);
    KeysGrow(t, t.(assets := t.assets[id := row]));
    NeighboursKeepValid(t, t.(assets := t.assets[id := row]));
  }

  lemma LineageKeepsValid(t: Tables, id: Id, row: Lineage)
    requires Valid(t) && LineageAdmitted(t, id, row)
    ensures Valid(t.(lineage := t.lineage[id := row]))
  {
    KeysGrow(t, t.(lineage := t.lineage[id := row]));
    NeighboursKeepValid(t, t.(lineage := t.lineage[id := row]));
  }

  lemma ReviewKeepsValid(t: Tables, id: Id)
    requires Valid(t)
    ensures Valid(t.(reviews := t.reviews + {id}))
  {
    KeysGrow(t, t.(reviews := t.reviews + {id}));
    NeighboursKeepValid(t, t.(reviews := t.reviews + {id}));
  }

  lemma AssetOrLineageKeepsValid(t: Tables, s: Statement)
    requires Valid(t) && (s.PutAsset? || s.PutLineage?)
    ensures Valid(Step(t, s))
  {
    match s
    case PutAsset(id, row) => if AssetAdmitted(t.assets, id, row) { AssetKeepsValid(t, id, row); }
    case PutLineage(id, row) => if LineageAdmitted(t, id, row) { LineageKeepsValid(t, id, row); }
  }

  /** Every statement keeps the database valid. */
  lemma StepKeepsValid(t: Tables, s: Statement)
    requires Valid(t)
    ensures Valid(Step(t, s))
  {
    match s {
      case InsertJob(id, job) =>
        if JobInsertAdmitted(t, id, job) { JobInsertKeepsValid(t, id, job); }
      case UpdateJob(id, job) =>
        if Execute(t, s).Some? { WithJobKeepsValid(t, id, job); }
      case InsertOutput(id, row) =>
        if OutputAdmitted(t, id, row) { OutputInsertKeepsValid(t, id, row); }
      case PutRelease(id, row) =>
        if NoReturn(t, id, row) { ReleaseMoveKeepsValid(t, id, row); }
      case _ => OtherStepKeepsValid(t, s);
    }
  }

  lemma OtherStepKeepsValid(t: Tables, s: Statement)
    requires Valid(t) && !s.InsertJob? && !s.UpdateJob? && !s.InsertOutput? && !s.PutRelease?
    ensures Valid(Step(t, s))
  {
    if s.InsertSelection? || s.InsertRecipe? {
      SelectionOrRecipeKeepsValid(t, s);
    } else if s.InsertReview? {
      ReviewKeepsValid(t, s.id);
    } else if s.PutAsset? || s.PutLineage? {
      AssetOrLineageKeepsValid(t, s);
    } else if s.InsertHead? || s.UpdateHead? {
      HeadStatementKeepsValid(t, s);
    } else {
      RevisionOrMemberKeepsValid(t, s);
    }
  }

  lemma {:induction false} RunKeepsValid(t: Tables, statements: seq<Statement>)
    requires Valid(t)
    ensures Valid(Run(t, statements))
  {
    if statements != [] {
      RunKeepsValid(t, statements[..|statements| - 1]);
      StepKeepsValid(Run(t, statements[..|statements| - 1]), statements[|statements| - 1]);
    }
  }

  /** A database without jobs, outputs, heads and members is valid. */
  lemma EmptyIsValid(t: Tables)
    requires t.jobs == map[] && t.outputs == map[] && t.heads == map[] && t.members == map[] && t.promoted == []
    requires KeysSound(t.selections, t.recipes, t.lineage, t.reviews, t.assets, t.versions)
    ensures Valid(t)
  {
  }

  // -------------------------------------------------------------------- outputs of a succeeded job

  function TargetsOf(t: Tables, job: Id): set<Target> {
    set o | o in OutputsOf(t, job) :: t.outputs[o].target
  }

  lemma TargetsCountOutputs(t: Tables, job: Id)
    requires Valid(t)
    ensures |TargetsOf(t, job)| == |OutputsOf(t, job)|
  {
    InjectiveImageSize(OutputsOf(t, job), TargetsOf(t, job),
                       (o: Id) requires o in t.outputs => t.outputs[o].target);
  }

  /**
    A succeeded job has exactly the expected number of outputs, with different targets of its
    recipe; when that is the number of recipe targets, it has each target once.
  */
  lemma SucceededJobIsComplete(t: Tables, id: Id)
    requires Valid(t) && id in t.jobs && t.jobs[id].state.Succeeded?
    ensures var i := t.jobs[id].identity;
            && i.recipe in t.recipes
            && |OutputsOf(t, id)| == |TargetsOf(t, id)| == i.expectedOutputs == t.recipes[i.recipe].expectedOutputs
            && TargetsOf(t, id) <= Elements(t.recipes[i.recipe].targets)
            && (i.expectedOutputs == |t.recipes[i.recipe].targets| ==>
                  && TargetsOf(t, id) == Elements(t.recipes[i.recipe].targets)
                  && forall m, n :: 0 <= m < n < |t.recipes[i.recipe].targets| ==>
                       t.recipes[i.recipe].targets[m] != t.recipes[i.recipe].targets[n])
  {
    var recipe := t.recipes[t.jobs[id].identity.recipe];
    assert JobSound(t, id);
    TargetsCountOutputs(t, id);
    forall o | o in OutputsOf(t, id)
      ensures t.outputs[o].target in recipe.targets
    {
      assert OutputSound(t, o);
    }
    ElementsCount(recipe.targets);
    if t.jobs[id].identity.expectedOutputs == |recipe.targets| {
      SubsetOfEqualSize(TargetsOf(t, id), Elements(recipe.targets));
    }
  }

  /** A job row changes only by an accepted update of it. */
  lemma StepUpdatesJob(t: Tables, s: Statement, id: Id)
    requires id in t.jobs
    ensures id in Step(t, s).jobs
    ensures Step(t, s).jobs[id] != t.jobs[id] ==> JobUpdateAdmitted(t, id, Step(t, s).jobs[id])
  {
    if !s.InsertJob? && !s.UpdateJob? { OtherJobs(t, s); }
  }

  lemma OtherJobs(t: Tables, s: Statement)
    requires !s.InsertJob? && !s.UpdateJob?
    ensures Step(t, s).jobs == t.jobs
  {
    StepWrites(t, s);
  }

  lemma OtherOutputs(t: Tables, s: Statement)
    requires s.InsertOutput? ==> !OutputAdmitted(t, s.id, s.output)
    ensures Step(t, s).outputs == t.outputs
  {
    StepWrites(t, s);
  }

  /** The outputs of a job change only while it is processing. */
  lemma StepAddsOutputs(t: Tables, s: Statement, id: Id)
    requires id in t.jobs && !t.jobs[id].state.Processing?
    ensures OutputsOf(Step(t, s), id) == OutputsOf(t, id)
    ensures forall o :: o in OutputsOf(t, id) ==> Step(t, s).outputs[o] == t.outputs[o]
  {
    if s.InsertOutput? && OutputAdmitted(t, s.id, s.output) {
      assert s.output.job != id;
    } else {
      OtherOutputs(t, s);
    }
  }

  lemma StepKeepsSucceeded(t: Tables, s: Statement, id: Id)
    requires id in t.jobs && t.jobs[id].state.Succeeded?
    ensures id in Step(t, s).jobs && Step(t, s).jobs[id] == t.jobs[id]
    ensures OutputsOf(Step(t, s), id) == OutputsOf(t, id)
    ensures forall o :: o in OutputsOf(t, id) ==> Step(t, s).outputs[o] == t.outputs[o]
  {
    StepUpdatesJob(t, s, id);
    StepAddsOutputs(t, s, id);
  }

  /** Neither a succeeded job nor its outputs change again. */
  lemma {:induction false} SucceededForever(t: Tables, statements: seq<Statement>, id: Id)
    requires id in t.jobs && t.jobs[id].state.Succeeded?
    ensures var last := Run(t, statements);
            && id in last.jobs && last.jobs[id] == t.jobs[id] && OutputsOf(last, id) == OutputsOf(t, id)
            && forall o :: o in OutputsOf(t, id) ==> last.outputs[o] == t.outputs[o]
  {
    if statements != [] {
      var before := statements[..|statements| - 1];
      SucceededForever(t, before, id);
      StepKeepsSucceeded(Run(t, before), statements[|statements| - 1], id);
    }
  }

  // -------------------------------------------------------------------- promotion

  /** The compare-and-swap of the AFTER trigger never fails once the BEFORE triggers passed. */
  lemma PromotionNeverAborts(t: Tables, id: Id, job: Jobs.Job)
    requires JobUpdateAdmitted(t, id, job)
    ensures WithJob(t, id, job).Some?
  {
    SwapSucceeds(t.releases, t.versions, job.identity.version, Rendering, ReadyToPublish);
  }

  /** Every relevant gating job of the version has succeeded with all its outputs. */
  predicate ReadyVersion(t: Tables, version: Id) {
    forall j :: j in t.jobs && HoldsBack(t, version, j) ==>
      t.jobs[j].state.Succeeded? && |OutputsOf(t, j)| == t.jobs[j].identity.expectedOutputs
  }

  /** A due promotion appends the version and moves its release on. */
  lemma DuePromotionEffect(t: Tables, id: Id, job: Jobs.Job)
    requires PromotedLeft(t) && JobUpdateAdmitted(t, id, job) && PromotionDue(job, t.(jobs := t.jobs[id := job]))
    ensures var next, version := Step(t, UpdateJob(id, job)), job.identity.version;
            && next.promoted == t.promoted + [version] && version !in t.promoted
            && CurrentIn(t.releases, t.versions, version, Rendering)
            && CurrentIn(next.releases, next.versions, version, ReadyToPublish)
  {
    PromotionNeverAborts(t, id, job);
    SwapSucceeds(t.releases, t.versions, job.identity.version, Rendering, ReadyToPublish);
    SwapKeepsPromotedLeft(t, job.identity.version, Step(t, UpdateJob(id, job)).releases);
  }

  /** What an admitted update leaves but its job, when no promotion is due. */
  lemma NoPromotionEffect(t: Tables, id: Id, job: Jobs.Job)
    requires JobUpdateAdmitted(t, id, job) && !PromotionDue(job, t.(jobs := t.jobs[id := job]))
    ensures Step(t, UpdateJob(id, job)) == t.(jobs := t.jobs[id := job])
  {
  }

  /** Readiness is what the AFTER trigger tests. */
  lemma ReadyIsDue(t: Tables, id: Id, job: Jobs.Job)
    requires Valid(t) && JobUpdateAdmitted(t, id, job)
    ensures ReadyVersion(Step(t, UpdateJob(id, job)), job.identity.version)
            <==> AllFinished(t.(jobs := t.jobs[id := job]), job.identity.version)
  {
    var updated := t.(jobs := t.jobs[id := job]);
    JobUpdateKeepsValid(t, id, job);
    ReadyIsAllFinished(updated, job.identity.version);
    OnlyReleasesFollow(t, id, job);
    ReadyFrame(updated, Step(t, UpdateJob(id, job)), job.identity.version);
  }

  lemma OnlyReleasesFollow(t: Tables, id: Id, job: Jobs.Job)
    requires JobUpdateAdmitted(t, id, job)
    ensures var updated, next := t.(jobs := t.jobs[id := job]), Step(t, UpdateJob(id, job));
            next == updated.(releases := next.releases, promoted := next.promoted)
  {
    PromotionNeverAborts(t, id, job);
  }

  /** A statement promotes a version exactly when it finishes the last relevant gating job. */
  lemma PromotesExactlyWhenReady(t: Tables, id: Id, job: Jobs.Job)
    requires Valid(t) && JobUpdateAdmitted(t, id, job)
    ensures var next, version := Step(t, UpdateJob(id, job)), job.identity.version;
            && (next.promoted != t.promoted <==> job.state.Succeeded? && job.identity.gates && ReadyVersion(next, version))
            && (next.promoted != t.promoted ==>
                  && next.promoted == t.promoted + [version] && version !in t.promoted
                  && CurrentIn(t.releases, t.versions, version, Rendering)
                  && CurrentIn(next.releases, next.versions, version, ReadyToPublish))
            && (next.promoted == t.promoted ==> next.releases == t.releases)
  {
    ReadyIsDue(t, id, job);
    if PromotionDue(job, t.(jobs := t.jobs[id := job])) {
      DuePromotionEffect(t, id, job);
    } else {
      NoPromotionEffect(t, id, job);
    }
  }

  lemma ReadyIsAllFinished(t: Tables, version: Id)
    requires JobsSound(t)
    ensures ReadyVersion(t, version) <==> AllFinished(t, version)
  {
    assert forall j :: j in t.jobs ==> JobSound(t, j);
  }

  lemma ReadyFrame(t: Tables, next: Tables, version: Id)
    requires next == t.(releases := next.releases, promoted := next.promoted)
    ensures ReadyVersion(t, version) <==> ReadyVersion(next, version)
  {
    forall j | j in t.jobs
      ensures HoldsBack(t, version, j) <==> HoldsBack(next, version, j)
      ensures OutputsOf(t, j) == OutputsOf(next, j)
    {
    }
  }

  lemma OnlyJobUpdatesPromote(t: Tables, s: Statement)
    ensures Step(t, s).promoted != t.promoted ==> s.UpdateJob? && JobUpdateAdmitted(t, s.id, s.job)
    ensures t.promoted <= Step(t, s).promoted
  {
    if !s.UpdateJob? { StepWrites(t, s); }
  }

  /** After the run `before` the statement promotes the version, and leaves it ready. */
  ghost predicate PromotedBy(t: Tables, before: seq<Statement>, s: Statement, version: Id) {
    var now := Run(t, before);
    version !in now.promoted && version in Step(now, s).promoted && ReadyVersion(Step(now, s), version)
  }

  lemma StepPromotesReady(t: Tables, s: Statement, version: Id)
    requires Valid(t) && version !in t.promoted && version in Step(t, s).promoted
    ensures ReadyVersion(Step(t, s), version)
  {
    OnlyJobUpdatesPromote(t, s);
    PromotesExactlyWhenReady(t, s.id, s.job);
  }

  /** A version that a run appends to the history is appended by one of its statements. */
  lemma {:induction false} SomeStatementPromotes(t: Tables, statements: seq<Statement>, version: Id) returns (k: nat)
    requires version !in t.promoted && version in Run(t, statements).promoted
    ensures k < |statements|
    ensures version !in Run(t, statements[..k]).promoted
    ensures version in Step(Run(t, statements[..k]), statements[k]).promoted
  {
    k := |statements| - 1;
    var before := statements[..k];
    if version in Run(t, before).promoted {
      k := SomeStatementPromotes(t, before, version);
      assert before[..k] == statements[..k];
    }
  }

  /** Over any run a version is promoted by a statement, here number k, after which it is ready ... */
  lemma PromotedWhenReady(t: Tables, statements: seq<Statement>, version: Id) returns (k: nat)
    requires Valid(t) && version !in t.promoted && version in Run(t, statements).promoted
    ensures k < |statements| && PromotedBy(t, statements[..k], statements[k], version)
  {
    k := SomeStatementPromotes(t, statements, version);
    RunKeepsValid(t, statements[..k]);
    StepPromotesReady(Run(t, statements[..k]), statements[k], version);
  }

  /** ... and at most once. */
  lemma PromotedOnce(t: Tables, statements: seq<Statement>, i: nat, j: nat)
    requires Valid(t) && i < j < |Run(t, statements).promoted|
    ensures Run(t, statements).promoted[i] != Run(t, statements).promoted[j]
  {
    RunKeepsValid(t, statements);
  }

  // -------------------------------------------------------------------- after promotion

  /** What stays of a promoted version. */
  ghost predicate StaysSealed(t: Tables, last: Tables, version: Id) {
    && version in last.promoted
    && forall j :: j in last.jobs && last.jobs[j].identity.version == version && last.jobs[j].identity.gates ==>
         && j in t.jobs && last.jobs[j].identity == t.jobs[j].identity
         && (last.jobs[j].state.Succeeded? <==> t.jobs[j].state.Succeeded?)
  }

  lemma StepAddsJob(t: Tables, s: Statement, id: Id)
    requires id in Step(t, s).jobs && id !in t.jobs
    ensures JobInsertAdmitted(t, id, Step(t, s).jobs[id])
  {
  }

  /** A gating job appears or succeeds only while its version is current in a rendering release. */
  lemma GatingNeedsRendering(t: Tables, s: Statement, id: Id)
    requires id in Step(t, s).jobs && Step(t, s).jobs[id].identity.gates
    requires id in t.jobs ==> t.jobs[id].state.Succeeded? != Step(t, s).jobs[id].state.Succeeded?
    ensures CurrentIn(t.releases, t.versions, Step(t, s).jobs[id].identity.version, Rendering)
  {
    if id in t.jobs {
      StepUpdatesJob(t, s, id);
    } else {
      StepAddsJob(t, s, id);
    }
  }

  lemma StepKeepsIdentity(t: Tables, s: Statement, id: Id)
    requires id in t.jobs
    ensures id in Step(t, s).jobs && Step(t, s).jobs[id].identity == t.jobs[id].identity
  {
    StepUpdatesJob(t, s, id);
  }

  lemma StepStaysSealed(t: Tables, now: Tables, s: Statement, version: Id)
    requires PromotedLeft(now) && StaysSealed(t, now, version)
    ensures StaysSealed(t, Step(now, s), version)
  {
    var next := Step(now, s);
    OnlyJobUpdatesPromote(now, s);
    assert !CurrentIn(now.releases, now.versions, version, Rendering);
    forall j | j in next.jobs && next.jobs[j].identity.version == version && next.jobs[j].identity.gates
      ensures && j in t.jobs && next.jobs[j].identity == t.jobs[j].identity
              && (next.jobs[j].state.Succeeded? <==> t.jobs[j].state.Succeeded?)
    {
      if j !in now.jobs || (now.jobs[j].state.Succeeded? != next.jobs[j].state.Succeeded?) {
        GatingNeedsRendering(now, s, j);
      }
      StepKeepsIdentity(now, s, j);
    }
  }

  /**
    After a promotion no gating job of the version is added and none that was unfinished
    succeeds, while the full gating jobs outside X revisions have all succeeded completely.
  */
  lemma {:induction false} PromotedVersionIsSealed(t: Tables, statements: seq<Statement>, version: Id)
    requires Valid(t) && version in t.promoted
    ensures StaysSealed(t, Run(t, statements), version)
    ensures var last := Run(t, statements);
            forall j :: j in last.jobs && last.jobs[j].identity.version == version && Sealed(last, last.jobs[j].identity) ==>
              last.jobs[j].state.Succeeded? && |OutputsOf(last, j)| == last.jobs[j].identity.expectedOutputs
  {
    if statements != [] {
      var before := statements[..|statements| - 1];
      PromotedVersionIsSealed(t, before, version);
      RunKeepsValid(t, before);
      StepStaysSealed(t, Run(t, before), statements[|statements| - 1], version);
    }
    RunKeepsValid(t, statements);
    SealedMeansDone(Run(t, statements), version);
  }

  lemma SealedMeansDone(t: Tables, version: Id)
    requires JobsSound(t) && version in t.promoted
    ensures forall j :: j in t.jobs && t.jobs[j].identity.version == version && Sealed(t, t.jobs[j].identity) ==>
              t.jobs[j].state.Succeeded? && |OutputsOf(t, j)| == t.jobs[j].identity.expectedOutputs
  {
    forall j | j in t.jobs && t.jobs[j].identity.version == version && Sealed(t, t.jobs[j].identity)
      ensures t.jobs[j].state.Succeeded? && |OutputsOf(t, j)| == t.jobs[j].identity.expectedOutputs
    {
      assert JobSound(t, j) && SealedDone(t, j);
    }
  }

  // -------------------------------------------------------------------- jobs that can no longer finish

  /** Cancelled, or failed beyond any rearm. */
  predicate Dead(t: Tables, job: Jobs.Job) {
    || job.state.Cancelled?
    || (job.state.Failed?
        && (|| job.errorCode == Some(Jobs.CONFLICT)
            || job.maxAttempts >= Jobs.ATTEMPT_LIMIT
            || !(job.identity.recipe in t.recipes && t.recipes[job.identity.recipe].targets == [Full])))
  }

  /** In a rendering release a failed job can be updated again exactly when it is not dead. */
  lemma FailedJobRevives(t: Tables, id: Id)
    requires Valid(t) && id in t.jobs && t.jobs[id].state.Failed?
    requires CurrentIn(t.releases, t.versions, t.jobs[id].identity.version, Rendering)
    ensures !Dead(t, t.jobs[id]) <==> exists job :: JobUpdateAdmitted(t, id, job)
  {
    assert JobSound(t, id);
    if !Dead(t, t.jobs[id]) {
      var was := t.jobs[id];
      var rearmed := was.(state := Jobs.RetryWait, maxAttempts := was.maxAttempts + 1, lockVersion := was.lockVersion + 1,
                           retryAt := Some(0), completedAt := None, errorCode := None, errorDetail := None);
      assert JobUpdateAdmitted(t, id, rearmed);
    }
  }

  lemma DeadIsFinal(t: Tables, id: Id, job: Jobs.Job)
    requires id in t.jobs && JobSound(t, id) && Dead(t, t.jobs[id])
    ensures !JobUpdateAdmitted(t, id, job)
  {
  }

  lemma StepKeepsRecipes(t: Tables, s: Statement)
    ensures forall r :: r in t.recipes ==> r in Step(t, s).recipes && Step(t, s).recipes[r] == t.recipes[r]
  {
  }

  lemma StepKeepsDead(t: Tables, s: Statement, id: Id)
    requires id in t.jobs && JobSound(t, id) && Dead(t, t.jobs[id])
    ensures id in Step(t, s).jobs && Step(t, s).jobs[id] == t.jobs[id] && Dead(Step(t, s), t.jobs[id])
  {
    StepUpdatesJob(t, s, id);
    DeadIsFinal(t, id, Step(t, s).jobs[id]);
    StepKeepsRecipes(t, s);
  }

  /** One dead job that is relevant under every head keeps its version from ever being promoted. */
  lemma {:induction false} DeadJobBlocksPromotion(t: Tables, statements: seq<Statement>, id: Id)
    requires Valid(t) && id in t.jobs && Dead(t, t.jobs[id]) && Sealed(t, t.jobs[id].identity)
    ensures var last := Run(t, statements);
            && id in last.jobs && last.jobs[id] == t.jobs[id] && Dead(last, last.jobs[id]) && Sealed(last, last.jobs[id].identity)
            && t.jobs[id].identity.version !in last.promoted
  {
    if statements != [] {
      var before := statements[..|statements| - 1];
      DeadJobBlocksPromotion(t, before, id);
      RunKeepsValid(t, before);
      StepKeepsDead(Run(t, before), statements[|statements| - 1], id);
      StepKeepsSealed(Run(t, before), statements[|statements| - 1], t.jobs[id].identity);
    }
    RunKeepsValid(t, statements);
    assert SealedDone(Run(t, statements), id);
  }

  lemma StepKeepsSealed(t: Tables, s: Statement, i: Jobs.Identity)
    requires Sealed(t, i)
    ensures Sealed(Step(t, s), i)
  {
    StepKeepsRecipes(t, s);
  }

  // -------------------------------------------------------------------- histories of one row

  /** The successive rows of a job over a run. */
  function JobRows(t: Tables, statements: seq<Statement>, id: Id): (rows: seq<Jobs.Job>)
    requires id in t.jobs
    ensures rows != []
  {
    if statements == [] then [t.jobs[id]]
    else
      var before := statements[..|statements| - 1];
      var rows, next := JobRows(t, before, id), Run(t, statements);
      if id in next.jobs && next.jobs[id] != rows[|rows| - 1] then rows + [next.jobs[id]] else rows
  }

  /** They form a history in the sense of the row guards. */
  lemma {:induction false} JobRowsAreAHistory(t: Tables, statements: seq<Statement>, id: Id) returns (around: seq<Jobs.Surroundings>)
    requires id in t.jobs && Jobs.Plausible(t.jobs[id])
    ensures Jobs.History(JobRows(t, statements, id), around)
    ensures JobRows(t, statements, id)[0] == t.jobs[id]
    ensures id in Run(t, statements).jobs && Run(t, statements).jobs[id] == JobRows(t, statements, id)[|around|]
  {
    if statements == [] {
      around := [];
    } else {
      var before := statements[..|statements| - 1];
      var now := Run(t, before);
      around := JobRowsAreAHistory(t, before, id);
      StepUpdatesJob(now, statements[|statements| - 1], id);
      if Run(t, statements).jobs[id] != now.jobs[id] {
        around := around + [Around(now, id)];
      }
    }
  }

  /** Over any run of the whole database a job is updated at most 4 * max(10, max_attempts) times. */
  lemma JobStops(t: Tables, statements: seq<Statement>, id: Id)
    requires Valid(t) && id in t.jobs
    ensures id in Run(t, statements).jobs
    ensures var rows, last := JobRows(t, statements, id), Run(t, statements).jobs[id];
            && |rows| - 1 <= 4 * (if t.jobs[id].maxAttempts > 10 then t.jobs[id].maxAttempts else 10)
            && last.lockVersion == t.jobs[id].lockVersion + |rows| - 1
            && last.attempts == t.jobs[id].attempts + Jobs.Claims(rows)
            && last.identity == t.jobs[id].identity
  {
    assert JobSound(t, id);
    var around := JobRowsAreAHistory(t, statements, id);
    Jobs.UpdatesAreFinite(JobRows(t, statements, id), around);
  }

  /** The successive rows of a head. */
  function HeadRows(t: Tables, statements: seq<Statement>, id: Id): (rows: seq<Heads.Head>)
    requires id in t.heads
    ensures rows != []
  {
    if statements == [] then [t.heads[id]]
    else
      var before := statements[..|statements| - 1];
      var rows, next := HeadRows(t, before, id), Run(t, statements);
      if id in next.heads && next.heads[id] != rows[|rows| - 1] then rows + [next.heads[id]] else rows
  }

  lemma StepUpdatesHead(t: Tables, s: Statement, id: Id)
    requires id in t.heads
    ensures id in Step(t, s).heads
    ensures Step(t, s).heads[id] != t.heads[id] ==> Heads.Guard(t.heads[id], Step(t, s).heads[id]) && Heads.Checks(Step(t, s).heads[id])
  {
  }

  lemma {:induction false} HeadRowsAreAHistory(t: Tables, statements: seq<Statement>, id: Id)
    requires id in t.heads && Heads.Checks(t.heads[id])
    ensures Heads.History(HeadRows(t, statements, id))
    ensures HeadRows(t, statements, id)[0] == t.heads[id]
    ensures var rows := HeadRows(t, statements, id);
            id in Run(t, statements).heads && Run(t, statements).heads[id] == rows[|rows| - 1]
  {
    if statements == [] {
      assert Heads.History([t.heads[id]]);
    } else {
      var before := statements[..|statements| - 1];
      HeadRowsAreAHistory(t, before, id);
      NextHeadRow(HeadRows(t, before, id), Run(t, before), statements[|statements| - 1], id);
    }
  }

  lemma NextHeadRow(rows: seq<Heads.Head>, t: Tables, s: Statement, id: Id)
    requires Heads.History(rows) && id in t.heads && t.heads[id] == rows[|rows| - 1]
    ensures id in Step(t, s).heads
    ensures Step(t, s).heads[id] != t.heads[id] ==> Heads.History(rows + [Step(t, s).heads[id]])
  {
    StepUpdatesHead(t, s, id);
    if Step(t, s).heads[id] != t.heads[id] {
      Heads.OneMore(rows, Step(t, s).heads[id]);
    }
  }

  /** Over any run of the whole database the pointers of a head alternate, and activation follows proposal. */
  lemma HeadPointersAlternate(t: Tables, statements: seq<Statement>, id: Id)
    requires id in t.heads && Heads.Checks(t.heads[id])
    ensures id in Run(t, statements).heads
    ensures Run(t, statements).heads[id].lockVersion == t.heads[id].lockVersion + |HeadRows(t, statements, id)| - 1
    ensures Heads.PendingByParity(t.heads[id], Run(t, statements).heads[id])
    ensures Heads.ActiveByProposal(HeadRows(t, statements, id), |HeadRows(t, statements, id)| - 1)
  {
    var rows := HeadRows(t, statements, id);
    HeadRowsAreAHistory(t, statements, id);
    Heads.EndOfHistory(rows, Run(t, statements).heads[id]);
  }

  lemma {:induction false} HeadKeepsServing(t: Tables, statements: seq<Statement>, id: Id)
    requires id in t.heads && t.heads[id].active.Some?
    ensures var last := Run(t, statements);
            && id in last.heads && last.heads[id].active.Some?
            && last.heads[id].task == t.heads[id].task && last.heads[id].version == t.heads[id].version
  {
    if statements != [] {
      var before := statements[..|statements| - 1];
      HeadKeepsServing(t, before, id);
      StepUpdatesHead(Run(t, before), statements[|statements| - 1], id);
    }
  }

  /** A head that serves a revision always serves one, of its own task and version. */
  lemma HeadServesOwnRevision(t: Tables, statements: seq<Statement>, id: Id)
    requires Valid(t) && id in t.heads && t.heads[id].active.Some?
    ensures var last := Run(t, statements);
            && id in last.heads && last.heads[id].active.Some?
            && last.heads[id].active.value in last.revisions
            && last.revisions[last.heads[id].active.value].task == t.heads[id].task
            && last.revisions[last.heads[id].active.value].version == t.heads[id].version
  {
    HeadKeepsServing(t, statements, id);
    RunKeepsValid(t, statements);
    assert PointsAtOwn(Run(t, statements), Run(t, statements).heads[id]);
  }

  /** An admitted update always takes effect, with the promotion when it is due. */
  lemma UpdateEffect(t: Tables, id: Id, job: Jobs.Job)
    ensures if JobUpdateAdmitted(t, id, job) then WithJob(t, id, job) == Some(Step(t, UpdateJob(id, job)))
            else Step(t, UpdateJob(id, job)) == t
  {
    if JobUpdateAdmitted(t, id, job) { PromotionNeverAborts(t, id, job); }
  }

  /** Neither jobs nor outputs change, nor what a promotion changes, outside their statements. */
  predicate SameJobs(t: Tables, next: Tables) {
    next.jobs == t.jobs && next.outputs == t.outputs && next.promoted == t.promoted && next.versions == t.versions
  }

  lemma OtherEffect(t: Tables, s: Statement)
    requires !s.InsertJob? && !s.UpdateJob? && !s.InsertOutput?
    ensures SameJobs(t, Step(t, s))
  {
    if Execute(t, s).Some? {
      match s {
        case InsertReview(id) => assert Step(t, s) == t.(reviews := t.reviews + {id});
        case InsertSelection(id, row) => assert Step(t, s) == t.(selections := t.selections[id := row]);
        case InsertRecipe(id, row) => assert Step(t, s) == t.(recipes := t.recipes[id := row]);
        case InsertRevision(id, row) => assert Step(t, s) == t.(revisions := t.revisions[id := row]);
        case InsertHead(id, row) => assert Step(t, s) == t.(heads := t.heads[id := row]);
        case UpdateHead(id, row) => assert Step(t, s) == t.(heads := t.heads[id := row]);
        case InsertMember(id, row) => assert Step(t, s) == t.(members := t.members[id := row]);
        case PutAsset(id, row) => assert Step(t, s) == t.(assets := t.assets[id := row]);
        case PutLineage(id, row) => assert Step(t, s) == t.(lineage := t.lineage[id := row]);
        case PutRelease(id, row) => assert Step(t, s) == t.(releases := t.releases[id := row]);
      }
    }
  }

  // -------------------------------------------------------------------- the database

  class Database {
    var selections: map<Id, Selected>
    var recipes: map<Id, Recipe>
    var jobs: map<Id, Jobs.Job>
    var outputs: map<Id, Output>
    var lineage: map<Id, Lineage>
    var revisions: map<Id, Revision>
    var heads: map<Id, Heads.Head>
    var members: map<Id, Member>
    var reviews: set<Id>
    var assets: AssetTable
    var releases: ReleaseTable
    const versions: VersionTable
    var promoted: seq<Id>

    function Rows(): Tables
      reads this
    {
      Tables(selections, recipes, jobs, outputs, lineage, revisions, heads, members, reviews, assets, releases, versions, promoted)
    }

    constructor (versions: VersionTable)
      ensures this.versions == versions && Valid(Rows())
      ensures Rows() == Tables(map[], map[], map[], map[], map[], map[], map[], map[], {}, map[], map[], versions, [])
    {
      selections, recipes, jobs, outputs, lineage, revisions := map[], map[], map[], map[], map[], map[];
      heads, members, reviews, assets, releases, promoted := map[], map[], {}, map[], map[], [];
      this.versions := versions;
      new;
      EmptyIsValid(Rows());
    }

    method CreateJob(id: Id, job: Jobs.Job) returns (ok: bool)
      requires Valid(Rows())
      modifies this`jobs
      ensures Valid(Rows())
      ensures ok <==> JobInsertAdmitted(old(Rows()), id, job)
      ensures Rows() == Step(old(Rows()), InsertJob(id, job))
    {
      StepKeepsValid(Rows(), InsertJob(id, job));
      ok := JobInsertAdmitted(Rows(), id, job);
      if ok { jobs := jobs[id := job]; }
    }

    /** One UPDATE of a job with its BEFORE and AFTER triggers. */
    method Update(id: Id, job: Jobs.Job) returns (ok: bool)
      requires Valid(Rows())
      modifies this`jobs, this`releases, this`promoted
      ensures Valid(Rows())
      ensures ok <==> JobUpdateAdmitted(old(Rows()), id, job)
      ensures Rows() == Step(old(Rows()), UpdateJob(id, job))
    {
      StepKeepsValid(Rows(), UpdateJob(id, job));
      UpdateEffect(Rows(), id, job);
      ok := JobUpdateAdmitted(Rows(), id, job);
      if ok { WriteJob(id, job); }
    }

    /** The admitted row, and the promotion when it is due. */
    method WriteJob(id: Id, job: Jobs.Job)
      requires WithJob(Rows(), id, job).Some?
      modifies this`jobs, this`releases, this`promoted
      ensures Some(Rows()) == WithJob(old(Rows()), id, job)
    {
      jobs := jobs[id := job];
      if PromotionDue(job, Rows()) { Promote(job.identity.version); }
    }

    /** The compare-and-swap of the AFTER trigger. */
    method Promote(version: Id)
      requires Swap(releases, versions, version, Rendering, ReadyToPublish).Some?
      modifies this`releases, this`promoted
      ensures Some(releases) == Swap(old(releases), versions, version, Rendering, ReadyToPublish)
      ensures promoted == old(promoted) + [version]
    {
      var swapped := Swap(releases, versions, version, Rendering, ReadyToPublish);
      releases, promoted := swapped.value, promoted + [version];
    }

    method Record(id: Id, output: Output) returns (ok: bool)
      requires Valid(Rows())
      modifies this`outputs
      ensures Valid(Rows())
      ensures ok <==> OutputAdmitted(old(Rows()), id, output)
      ensures Rows() == Step(old(Rows()), InsertOutput(id, output))
    {
      StepKeepsValid(Rows(), InsertOutput(id, output));
      ok := OutputAdmitted(Rows(), id, output);
      if ok { outputs := outputs[id := output]; }
    }

    method MoveHead(id: Id, head: Heads.Head) returns (ok: bool)
      requires Valid(Rows())
      modifies this`heads
      ensures Valid(Rows())
      ensures ok <==> HeadUpdateAdmitted(old(Rows()), id, head)
      ensures Rows() == Step(old(Rows()), UpdateHead(id, head))
    {
      StepKeepsValid(Rows(), UpdateHead(id, head));
      ok := HeadUpdateAdmitted(Rows(), id, head);
      if ok { heads := heads[id := head]; }
    }

    /** The statements that only insert a row, or move an asset, a lineage or a release. */
    method Other(s: Statement)
      requires Valid(Rows())
      requires !s.InsertJob? && !s.UpdateJob? && !s.InsertOutput? && !s.UpdateHead?
      modifies this
      ensures Valid(Rows()) && Rows() == Step(old(Rows()), s)
    {
      StepKeepsValid(Rows(), s);
      OtherEffect(Rows(), s);
      var next := Step(Rows(), s);
      Write(next);
    }

    method Write(next: Tables)
      requires SameJobs(Rows(), next)
      modifies this
      ensures Rows() == next
    {
      WriteRequests(next);
      WriteRest(next);
    }

    method WriteRequests(next: Tables)
      modifies this`selections, this`recipes, this`revisions, this`heads, this`members
      ensures selections == next.selections && recipes == next.recipes && revisions == next.revisions
      ensures heads == next.heads && members == next.members
    {
      selections, recipes, revisions, heads, members := next.selections, next.recipes, next.revisions, next.heads, next.members;
    }

    method WriteRest(next: Tables)
      modifies this`lineage, this`reviews, this`assets, this`releases
      ensures lineage == next.lineage && reviews == next.reviews && assets == next.assets && releases == next.releases
    {
      lineage, reviews, assets, releases := next.lineage, next.reviews, next.assets, next.releases;
    }

    /** Any sequence of statements. */
    method ExecuteAll(statements: seq<Statement>)
      requires Valid(Rows())
      modifies this
      ensures Valid(Rows()) && Rows() == Run(old(Rows()), statements)
    {
      for n := 0 to |statements|
        invariant Valid(Rows()) && Rows() == Run(old(Rows()), statements[..n])
      {
        assert statements[..n + 1][..n] == statements[..n];
        match statements[n]
        case InsertJob(id, job) => var _ := CreateJob(id, job);
        case UpdateJob(id, job) => var _ := Update(id, job);
        case InsertOutput(id, output) => var _ := Record(id, output);
        case UpdateHead(id, head) => var _ := MoveHead(id, head);
        case _ => Other(statements[n]);
      }
      assert statements[..|statements|] == statements;
    }
  }
}
