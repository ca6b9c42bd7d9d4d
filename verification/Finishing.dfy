/**
  Which jobs of a release can still succeed (migrations 0009, 0026, 0027).
  A job is stuck when it is cancelled, failed beyond any rearm, waiting without an attempt left,
  when its recorded outputs or the targets of its recipe rule the expected number out, or when
  the digest of its recipe is blank.  Every other job has a run that finishes it.
*/
module Finishing {
  import opened Assets
  import opened Basics
  import opened Releases
  import opened Rendering
  import Jobs

  /** Some sequence of updates of the row alone leads to processing. */
  predicate Alive(t: Tables, job: Jobs.Job) {
    !Dead(t, job) && (job.state.RetryWait? ==> job.attempts < job.maxAttempts)
  }

  /** The targets that a CHECK lets an output have. */
  function Recordable(r: Recipe): set<Target> {
    set x | x in r.targets && !Blank(x)
  }

  /**
    The expected number of outputs is neither exceeded nor more than the recipe has targets that
    can be recorded, and its digest can be.
  */
  predicate Completable(t: Tables, id: Id)
    requires id in t.jobs
  {
    var i := t.jobs[id].identity;
    && i.recipe in t.recipes && !Blank(t.recipes[i.recipe].configSha256)
    && |OutputsOf(t, id)| <= i.expectedOutputs <= |Recordable(t.recipes[i.recipe])|
  }

  predicate CanSucceed(t: Tables, id: Id) {
    id in t.jobs && Alive(t, t.jobs[id]) && Completable(t, id)
  }

  // -------------------------------------------------------------------- a stuck job stays stuck

  lemma TargetsAreRecordable(t: Tables, id: Id)
    requires Valid(t) && id in t.jobs && t.jobs[id].identity.recipe in t.recipes
    ensures TargetsOf(t, id) <= Recordable(t.recipes[t.jobs[id].identity.recipe])
    ensures OutputsOf(t, id) != {} ==> !Blank(t.recipes[t.jobs[id].identity.recipe].configSha256)
  {
    forall o | o in OutputsOf(t, id)
      ensures t.outputs[o].target in Recordable(t.recipes[t.jobs[id].identity.recipe])
      ensures !Blank(t.recipes[t.jobs[id].identity.recipe].configSha256)
    {
      assert OutputSound(t, o);
    }
  }

  lemma SucceededCanSucceed(t: Tables, id: Id)
    requires Valid(t) && id in t.jobs && t.jobs[id].state.Succeeded?
    ensures CanSucceed(t, id)
  {
    assert JobSound(t, id);
    TargetsCountOutputs(t, id);
    TargetsAreRecordable(t, id);
    SubsetIsSmaller(TargetsOf(t, id), Recordable(t.recipes[t.jobs[id].identity.recipe]));
  }

  lemma StepKeepsOutputs(t: Tables, s: Statement, id: Id)
    ensures OutputsOf(t, id) <= OutputsOf(Step(t, s), id)
  {
    StepWrites(t, s);
  }

  lemma UpdateKeepsAlive(t: Tables, id: Id, job: Jobs.Job)
    requires id in t.jobs && JobSound(t, id) && JobUpdateAdmitted(t, id, job) && Alive(t, job)
    ensures Alive(t, t.jobs[id])
  {
  }

  lemma StepKeepsStuck(t: Tables, s: Statement, id: Id)
    requires Valid(t) && id in t.jobs && CanSucceed(Step(t, s), id)
    ensures CanSucceed(t, id)
  {
    assert JobSound(t, id);
    StepUpdatesJob(t, s, id);
    StepKeepsRecipes(t, s);
    StepKeepsOutputs(t, s, id);
    SubsetIsSmaller(OutputsOf(t, id), OutputsOf(Step(t, s), id));
    if Step(t, s).jobs[id] != t.jobs[id] {
      UpdateKeepsAlive(t, id, Step(t, s).jobs[id]);
    }
  }

  /** A stuck job never succeeds. */
  lemma {:induction false} StuckForever(t: Tables, statements: seq<Statement>, id: Id)
    requires Valid(t) && id in t.jobs && !CanSucceed(t, id)
    ensures var last := Run(t, statements);
            id in last.jobs && !CanSucceed(last, id) && !last.jobs[id].state.Succeeded?
  {
    if statements != [] {
      var before, s := statements[..|statements| - 1], statements[|statements| - 1];
      StuckForever(t, before, id);
      RunKeepsValid(t, before);
      StepUpdatesJob(Run(t, before), s, id);
      if CanSucceed(Step(Run(t, before), s), id) {
        StepKeepsStuck(Run(t, before), s, id);
      }
    }
    RunKeepsValid(t, statements);
    if Run(t, statements).jobs[id].state.Succeeded? {
      SucceededCanSucceed(Run(t, statements), id);
    }
  }

  // -------------------------------------------------------------------- the others have a run

  lemma RunRuns()
    ensures Runs(Run, Step)
  {
    forall t, actions, a
      ensures Run(t, actions + [a]) == Step(Run(t, actions), a)
    {
      assert (actions + [a])[..|actions|] == actions;
    }
  }

  lemma RunTwice(t: Tables, first: seq<Statement>, second: seq<Statement>)
    ensures Run(t, first + second) == Run(Run(t, first), second)
  {
    RunRuns();
    RunsCompose(Run, Step, t, first, second);
  }

  lemma RunOne(t: Tables, s: Statement)
    ensures Run(t, [s]) == Step(t, s)
  {
    RunRuns();
    RunsOnce(Run, Step, t, s);
  }

  /** Only the job, outputs, assets and lineage differ; the job is the same one. */
  ghost predicate WorksOn(t: Tables, next: Tables, id: Id)
    requires id in t.jobs
  {
    && id in next.jobs && next.jobs[id].identity == t.jobs[id].identity
    && next.jobs == t.jobs[id := next.jobs[id]]
    && next == t.(jobs := next.jobs, outputs := next.outputs, assets := next.assets, lineage := next.lineage)
    && (forall o :: o in t.outputs ==> o in next.outputs && next.outputs[o] == t.outputs[o])
    && forall o :: o in next.outputs && o !in t.outputs ==> next.outputs[o].job == id
  }

  lemma WorksOnTwice(t: Tables, mid: Tables, next: Tables, id: Id)
    requires id in t.jobs && WorksOn(t, mid, id) && WorksOn(mid, next, id)
    ensures WorksOn(t, next, id)
  {
  }

  /** An update that does not succeed touches nothing but its row. */
  lemma QuietUpdate(t: Tables, id: Id, job: Jobs.Job)
    requires JobUpdateAdmitted(t, id, job) && !job.state.Succeeded?
    ensures Run(t, [UpdateJob(id, job)]) == t.(jobs := t.jobs[id := job])
    ensures WorksOn(t, t.(jobs := t.jobs[id := job]), id)
  {
    RunOne(t, UpdateJob(id, job));
    NoPromotionEffect(t, id, job);
  }

  /** A live job where it may run; a failed one is of a rendering release. */
  ghost predicate Workable(t: Tables, id: Id) {
    && Valid(t) && CanSucceed(t, id) && !t.jobs[id].state.Succeeded?
    && t.jobs[id].identity.selection in t.selections && Placed(t, t.jobs[id].identity)
    && (t.jobs[id].state.Failed? ==> CurrentIn(t.releases, t.versions, t.jobs[id].identity.version, Rendering))
  }

  function Rearmed(job: Jobs.Job): Jobs.Job {
    job.(state := Jobs.RetryWait, maxAttempts := job.maxAttempts + 1, lockVersion := job.lockVersion + 1,
         retryAt := Some(0), completedAt := None, errorCode := None, errorDetail := None)
  }

  function Taken(job: Jobs.Job): Jobs.Job {
    job.(state := Jobs.Claimed, attempts := job.attempts + 1, lockVersion := job.lockVersion + 1, retryAt := None,
         leaseOwner := Some("worker"), leaseExpiresAt := Some(0))
  }

  function Started(job: Jobs.Job): Jobs.Job {
    job.(state := Jobs.Processing, lockVersion := job.lockVersion + 1)
  }

  function Finished(job: Jobs.Job): Jobs.Job {
    job.(state := Jobs.Succeeded, lockVersion := job.lockVersion + 1, completedAt := Some(job.identity.requestedAt),
         leaseOwner := None, leaseExpiresAt := None)
  }

  lemma RearmAdmitted(t: Tables, id: Id)
    requires Workable(t, id) && t.jobs[id].state.Failed?
    ensures JobUpdateAdmitted(t, id, Rearmed(t.jobs[id]))
  {
    assert JobSound(t, id);
  }

  lemma TakeAdmitted(t: Tables, id: Id)
    requires Workable(t, id) && (t.jobs[id].state.Requested? || t.jobs[id].state.RetryWait?)
    ensures JobUpdateAdmitted(t, id, Taken(t.jobs[id]))
  {
    assert JobSound(t, id);
  }

  lemma StartAdmitted(t: Tables, id: Id)
    requires Workable(t, id) && t.jobs[id].state.Claimed?
    ensures JobUpdateAdmitted(t, id, Started(t.jobs[id]))
  {
    assert JobSound(t, id);
  }

  lemma FinishAdmitted(t: Tables, id: Id)
    requires Workable(t, id) && t.jobs[id].state.Processing? && |OutputsOf(t, id)| == t.jobs[id].identity.expectedOutputs
    ensures JobUpdateAdmitted(t, id, Finished(t.jobs[id]))
  {
    assert JobSound(t, id);
  }

  /** The next row of a live job that does not process yet. */
  function Advanced(job: Jobs.Job): Jobs.Job {
    if job.state.Failed? then Rearmed(job) else if job.state.Claimed? then Started(job) else Taken(job)
  }

  lemma AdvanceAdmitted(t: Tables, id: Id)
    requires Workable(t, id) && !t.jobs[id].state.Processing?
    ensures JobUpdateAdmitted(t, id, Advanced(t.jobs[id]))
  {
    if t.jobs[id].state.Failed? {
      RearmAdmitted(t, id);
    } else if t.jobs[id].state.Claimed? {
      StartAdmitted(t, id);
    } else {
      TakeAdmitted(t, id);
    }
  }

  /** ... and stays live, where it may run. */
  lemma AdvanceStaysAlive(t: Tables, id: Id)
    requires Workable(t, id) && !t.jobs[id].state.Processing? && JobSound(t, id)
    ensures var next := t.(jobs := t.jobs[id := Advanced(t.jobs[id])]);
            CanSucceed(next, id) && Placed(next, next.jobs[id].identity)
  {
    var next := t.(jobs := t.jobs[id := Advanced(t.jobs[id])]);
    assert OutputsOf(next, id) == OutputsOf(t, id);
  }

  lemma AdvanceWorks(t: Tables, id: Id)
    requires Workable(t, id) && !t.jobs[id].state.Processing?
    ensures var next := t.(jobs := t.jobs[id := Advanced(t.jobs[id])]);
            && Run(t, [UpdateJob(id, Advanced(t.jobs[id]))]) == next
            && Workable(next, id) && WorksOn(t, next, id)
  {
    var job := Advanced(t.jobs[id]);
    assert JobSound(t, id);
    AdvanceAdmitted(t, id);
    AdvanceStaysAlive(t, id);
    QuietUpdate(t, id, job);
    JobUpdateKeepsValid(t, id, job);
  }

  function Stage(s: Jobs.State): nat {
    match s
    case Failed => 3
    case Requested | RetryWait => 2
    case Claimed => 1
    case _ => 0
  }

  /** A live job can be brought to processing. */
  lemma {:induction false} ReachProcessing(t: Tables, id: Id) returns (statements: seq<Statement>)
    requires Workable(t, id)
    ensures var next := Run(t, statements);
            Workable(next, id) && WorksOn(t, next, id) && next.jobs[id].state.Processing?
    decreases Stage(t.jobs[id].state)
  {
    if t.jobs[id].state.Processing? {
      statements := [];
    } else {
      var job := Advanced(t.jobs[id]);
      var mid := t.(jobs := t.jobs[id := job]);
      AdvanceWorks(t, id);
      var rest := ReachProcessing(mid, id);
      statements := [UpdateJob(id, job)] + rest;
      RunTwice(t, [UpdateJob(id, job)], rest);
      WorksOnTwice(t, mid, Run(mid, rest), id);
    }
  }

  // -------------------------------------------------------------------- recording outputs

  /** A job with fewer outputs than targets leaves a target of its recipe free. */
  lemma FreeTarget(t: Tables, id: Id) returns (target: Target)
    requires Valid(t) && id in t.jobs && t.jobs[id].identity.recipe in t.recipes
    requires |OutputsOf(t, id)| < |Recordable(t.recipes[t.jobs[id].identity.recipe])|
    ensures target in Recordable(t.recipes[t.jobs[id].identity.recipe])
    ensures forall o :: o in OutputsOf(t, id) ==> t.outputs[o].target != target
  {
    var all := Recordable(t.recipes[t.jobs[id].identity.recipe]);
    TargetsCountOutputs(t, id);
    if all <= TargetsOf(t, id) { SubsetIsSmaller(all, TargetsOf(t, id)); }
    target :| target in all && target !in TargetsOf(t, id);
  }

  /** An output of the job on new rows, recorded before the lease expires. */
  function NewOutput(t: Tables, id: Id, target: Target, asset: Id, lineage: Id, storage: Storage): Output
    requires id in t.jobs && JobSound(t, id) && t.jobs[id].leaseExpiresAt.Some?
  {
    var i := t.jobs[id].identity;
    Output(id, i.selection, i.recipe, target, asset, t.selections[i.selection].asset, lineage, storage, Derivation,
           t.recipes[i.recipe].configSha256, t.jobs[id].leaseExpiresAt.value - 1)
  }

  function NewAsset(release: Id, storage: Storage): Asset {
    Asset(release, Kind.Derivative, true, false, Some(ObjectOf(storage)), Some(storage), None)
  }

  function LineageOf(o: Output): Lineage {
    Lineage(o.sourceAsset, o.asset, o.relation, o.recipeVersion)
  }

  /** The asset that an output of the job records. */
  function AssetFor(t: Tables, id: Id, o: Output): Asset
    requires id in t.jobs && t.jobs[id].identity.version in t.versions
  {
    NewAsset(t.versions[t.jobs[id].identity.version].release, o.storage)
  }

  /** The tables with the asset and the lineage that an output needs. */
  function WithSupport(t: Tables, id: Id, o: Output): Tables
    requires id in t.jobs && t.jobs[id].identity.version in t.versions
  {
    t.(assets := t.assets[o.asset := AssetFor(t, id, o)], lineage := t.lineage[o.lineage := LineageOf(o)])
  }

  function Support(t: Tables, id: Id, o: Output): seq<Statement>
    requires id in t.jobs && t.jobs[id].identity.version in t.versions
  {
    [PutAsset(o.asset, AssetFor(t, id, o))] + [PutLineage(o.lineage, LineageOf(o))]
  }

  /** The asset is a new row of its own object, and so is the lineage from the source. */
  predicate NewRows(t: Tables, id: Id, o: Output) {
    && id in t.jobs && t.jobs[id].identity.version in t.versions
    && t.versions[t.jobs[id].identity.version].release in t.releases
    && o.asset !in t.assets && o.lineage !in t.lineage && o.sourceAsset in t.assets
    && CopyChecks(o.storage) && ObjectFree(t.assets, o.asset, Some(ObjectOf(o.storage)))
  }

  lemma AssetStep(t: Tables, id: Id, row: Asset)
    requires AssetAdmitted(t.assets, id, row) && row.release in t.releases
    ensures Step(t, PutAsset(id, row)) == t.(assets := t.assets[id := row])
  {
  }

  lemma LineageStep(t: Tables, id: Id, row: Lineage)
    requires LineageAdmitted(t, id, row)
    ensures Step(t, PutLineage(id, row)) == t.(lineage := t.lineage[id := row])
  {
  }

  lemma RunTwoStatements(t: Tables, first: Statement, second: Statement)
    ensures Run(t, [first] + [second]) == Step(Step(t, first), second)
  {
    RunTwice(t, [first], [second]);
    RunOne(t, first);
    RunOne(Step(t, first), second);
  }

  /** No other lineage leads to a new asset. */
  lemma SupportFits(t: Tables, id: Id, o: Output)
    requires NewRows(t, id, o) && KeysSound(t.selections, t.recipes, t.lineage, t.reviews, t.assets, t.versions)
    ensures AssetAdmitted(t.assets, o.asset, AssetFor(t, id, o))
    ensures LineageAdmitted(t.(assets := t.assets[o.asset := AssetFor(t, id, o)]), o.lineage, LineageOf(o))
  {
    forall l | l in t.lineage
      ensures t.lineage[l] != LineageOf(o)
    {
      assert LineageKeyed(t.lineage[l], t.assets);
    }
  }

  lemma SupportRuns(t: Tables, id: Id, o: Output)
    requires NewRows(t, id, o) && KeysSound(t.selections, t.recipes, t.lineage, t.reviews, t.assets, t.versions)
    ensures Run(t, Support(t, id, o)) == WithSupport(t, id, o)
  {
    var row := AssetFor(t, id, o);
    SupportFits(t, id, o);
    RunTwoStatements(t, PutAsset(o.asset, row), PutLineage(o.lineage, LineageOf(o)));
    AssetStep(t, o.asset, row);
    LineageStep(t.(assets := t.assets[o.asset := row]), o.lineage, LineageOf(o));
  }

  lemma OutputFits(t: Tables, id: Id, o: Output, row: Id)
    requires Workable(t, id) && t.jobs[id].state.Processing? && JobSound(t, id) && t.jobs[id].leaseExpiresAt.Some?
    requires NewRows(t, id, o) && o == NewOutput(t, id, o.target, o.asset, o.lineage, o.storage)
    requires o.target in Recordable(t.recipes[t.jobs[id].identity.recipe])
    requires forall p :: p in OutputsOf(t, id) ==> t.outputs[p].target != o.target
    requires row !in t.outputs && forall p :: p in t.outputs ==> t.outputs[p].asset != o.asset
    ensures OutputAdmitted(WithSupport(t, id, o), row, o)
  {
  }

  /** The work on a job so far: it still processes under the same lease, and n outputs are recorded. */
  ghost predicate Recorded(t: Tables, next: Tables, id: Id, n: nat) {
    && id in t.jobs && Workable(next, id) && WorksOn(t, next, id) && next.jobs[id].state.Processing?
    && |OutputsOf(next, id)| == n
  }

  lemma SupportKeepsWorkable(t: Tables, id: Id, o: Output)
    requires Workable(t, id) && NewRows(t, id, o)
    ensures Valid(WithSupport(t, id, o)) && WorksOn(t, WithSupport(t, id, o), id)
  {
    SupportFits(t, id, o);
    AssetKeepsValid(t, o.asset, AssetFor(t, id, o));
    LineageKeepsValid(t.(assets := WithSupport(t, id, o).assets), o.lineage, LineageOf(o));
  }

  /** One more output, as far as the job goes. */
  lemma OutputAdds(t: Tables, next: Tables, id: Id, row: Id)
    requires Workable(t, id) && row !in t.outputs && next.jobs == t.jobs && next.recipes == t.recipes
    requires row in next.outputs && next.outputs == t.outputs[row := next.outputs[row]] && next.outputs[row].job == id
    requires |OutputsOf(t, id)| < t.jobs[id].identity.expectedOutputs
    ensures CanSucceed(next, id) && |OutputsOf(next, id)| == |OutputsOf(t, id)| + 1
  {
    assert OutputsOf(next, id) == OutputsOf(t, id) + {row};
  }

  function WithOutput(t: Tables, id: Id, o: Output, row: Id): Tables
    requires id in t.jobs && t.jobs[id].identity.version in t.versions
  {
    WithSupport(t, id, o).(outputs := t.outputs[row := o])
  }

  lemma OutputKeepsValid(t: Tables, id: Id, o: Output, row: Id)
    requires Workable(t, id) && NewRows(t, id, o) && OutputAdmitted(WithSupport(t, id, o), row, o)
    ensures Valid(WithOutput(t, id, o, row))
  {
    SupportKeepsWorkable(t, id, o);
    OutputInsertKeepsValid(WithSupport(t, id, o), row, o);
  }

  lemma OutputWorks(t: Tables, id: Id, o: Output, row: Id)
    requires id in t.jobs && t.jobs[id].identity.version in t.versions && row !in t.outputs && o.job == id
    ensures WorksOn(t, WithOutput(t, id, o, row), id)
  {
    assert t.jobs[id := t.jobs[id]] == t.jobs;
  }

  lemma OutputCounts(t: Tables, id: Id, o: Output, row: Id)
    requires Workable(t, id) && t.jobs[id].state.Processing? && o.job == id && row !in t.outputs
    requires |OutputsOf(t, id)| < t.jobs[id].identity.expectedOutputs
    requires NewRows(t, id, o) && OutputAdmitted(WithSupport(t, id, o), row, o)
    ensures Recorded(t, WithOutput(t, id, o, row), id, |OutputsOf(t, id)| + 1)
  {
    OutputKeepsValid(t, id, o, row);
    OutputAdds(t, WithOutput(t, id, o, row), id, row);
    OutputWorks(t, id, o, row);
  }

  lemma NewAssetId(t: Tables) returns (asset: Id)
    ensures asset !in t.assets && forall p :: p in t.outputs ==> t.outputs[p].asset != asset
  {
    var taken := set p | p in t.outputs :: t.outputs[p].asset;
    asset := Unused(t.assets.Keys + taken);
    forall p | p in t.outputs
      ensures t.outputs[p].asset != asset
    {
      assert t.outputs[p].asset in taken;
    }
  }

  /** A row for the next output of a processing job. */
  lemma NextOutput(t: Tables, id: Id) returns (o: Output, row: Id)
    requires Workable(t, id) && t.jobs[id].state.Processing? && |OutputsOf(t, id)| < t.jobs[id].identity.expectedOutputs
    ensures NewRows(t, id, o) && OutputAdmitted(WithSupport(t, id, o), row, o)
    ensures row !in t.outputs && o.job == id
  {
    assert JobSound(t, id);
    var target := FreeTarget(t, id);
    row := Unused(t.outputs.Keys);
    var lineage := Unused(t.lineage.Keys);
    var asset := NewAssetId(t);
    var key := UnusedKey(t.assets, {});
    NewStorageChecks(key);
    o := NewOutput(t, id, target, asset, lineage, StoredUnder(key));
    var i := t.jobs[id].identity;
    assert SelectionKeyed(t.selections[i.selection], t.reviews, t.assets, t.versions);
    OutputFits(t, id, o, row);
  }

  lemma OutputRuns(t: Tables, id: Id, o: Output, row: Id) returns (statements: seq<Statement>)
    requires NewRows(t, id, o) && OutputAdmitted(WithSupport(t, id, o), row, o)
    requires KeysSound(t.selections, t.recipes, t.lineage, t.reviews, t.assets, t.versions)
    ensures Run(t, statements) == WithOutput(t, id, o, row)
  {
    SupportRuns(t, id, o);
    statements := Support(t, id, o) + [InsertOutput(row, o)];
    RunTwice(t, Support(t, id, o), [InsertOutput(row, o)]);
    RunOne(WithSupport(t, id, o), InsertOutput(row, o));
  }

  /** A processing job that misses outputs can record another one. */
  lemma RecordOne(t: Tables, id: Id) returns (statements: seq<Statement>)
    requires Workable(t, id) && t.jobs[id].state.Processing? && |OutputsOf(t, id)| < t.jobs[id].identity.expectedOutputs
    ensures Recorded(t, Run(t, statements), id, |OutputsOf(t, id)| + 1)
  {
    var o, row := NextOutput(t, id);
    OutputCounts(t, id, o, row);
    statements := OutputRuns(t, id, o, row);
  }

  /** ... until it has them all. */
  lemma {:induction false} RecordAll(t: Tables, id: Id) returns (statements: seq<Statement>)
    requires Workable(t, id) && t.jobs[id].state.Processing?
    ensures Recorded(t, Run(t, statements), id, t.jobs[id].identity.expectedOutputs)
    decreases t.jobs[id].identity.expectedOutputs - |OutputsOf(t, id)|
  {
    if |OutputsOf(t, id)| == t.jobs[id].identity.expectedOutputs {
      statements := [];
    } else {
      var one := RecordOne(t, id);
      var mid := Run(t, one);
      var rest := RecordAll(mid, id);
      statements := one + rest;
      RunTwice(t, one, rest);
      WorksOnTwice(t, mid, Run(mid, rest), id);
    }
  }

  // -------------------------------------------------------------------- the run that finishes a job

  /** The job is finished; when that does not promote its version, nothing else is touched and another job holds a gating one's version back. */
  ghost predicate Finishes(t: Tables, next: Tables, id: Id)
    requires id in t.jobs
  {
    && id in next.jobs && next.jobs[id].state.Succeeded?
    && (|| t.jobs[id].identity.version in next.promoted
        || (WorksOn(t, next, id) && (t.jobs[id].identity.gates ==> !AllFinished(next, t.jobs[id].identity.version))))
  }

  lemma FinishNow(t: Tables, id: Id)
    requires Workable(t, id) && t.jobs[id].state.Processing? && |OutputsOf(t, id)| == t.jobs[id].identity.expectedOutputs
    ensures Finishes(t, Run(t, [UpdateJob(id, Finished(t.jobs[id]))]), id)
  {
    var job := Finished(t.jobs[id]);
    FinishAdmitted(t, id);
    RunOne(t, UpdateJob(id, job));
    OnlyReleasesFollow(t, id, job);
    if PromotionDue(job, t.(jobs := t.jobs[id := job])) {
      DuePromotionEffect(t, id, job);
    } else {
      NoPromotionEffect(t, id, job);
    }
  }

  lemma FinishJob(t: Tables, id: Id) returns (statements: seq<Statement>)
    requires Workable(t, id)
    ensures Finishes(t, Run(t, statements), id)
  {
    var started := ReachProcessing(t, id);
    var mid := Run(t, started);
    var recorded := RecordAll(mid, id);
    var full := Run(mid, recorded);
    WorksOnTwice(t, mid, full, id);
    var last := [UpdateJob(id, Finished(full.jobs[id]))];
    FinishNow(full, id);
    RunTwice(t, started, recorded);
    RunTwice(t, started + recorded, last);
    statements := started + recorded + last;
    if t.jobs[id].identity.version !in Run(full, last).promoted { WorksOnTwice(t, full, Run(full, last), id); }
  }

  /** Some run finishes a gating job of a rendering release exactly when it is not stuck. */
  lemma SucceedsInSomeRun(t: Tables, id: Id)
    requires Valid(t) && id in t.jobs && t.jobs[id].identity.gates
    requires CurrentIn(t.releases, t.versions, t.jobs[id].identity.version, Rendering)
    ensures CanSucceed(t, id) <==>
            exists statements :: id in Run(t, statements).jobs && Run(t, statements).jobs[id].state.Succeeded?
  {
    if CanSucceed(t, id) {
      if t.jobs[id].state.Succeeded? {
        assert Run(t, []) == t;
      } else {
        assert JobSound(t, id);
        var statements := FinishJob(t, id);
        assert Run(t, statements).jobs[id].state.Succeeded?;
      }
    } else {
      forall statements
        ensures !(id in Run(t, statements).jobs && Run(t, statements).jobs[id].state.Succeeded?)
      {
        StuckForever(t, statements, id);
      }
    }
  }
}
