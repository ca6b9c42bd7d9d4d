/**
  When some run can still promote a rendering version (migration 0027).  An application can
  move heads away from every teaser job, but not from a job that counts under every head it can
  reach: one outside X revisions that renders the full target, or whose review has its only head
  in another version.  Such a job must be able to succeed.
*/
module Promoting {
  import opened Assets
  import opened Basics
  import opened Finishing
  import opened Readiness
  import opened Releases
  import opened Rendering
  import Heads
  import Jobs

  /** The review of the job has its one head in another version. */
  predicate HeadElsewhere(t: Tables, i: Jobs.Identity) {
    i.selection in t.selections
    && exists h :: h in t.heads && t.heads[h].task == t.selections[i.selection].task && t.heads[h].version != i.version
  }

  /** No move of heads makes the job irrelevant. */
  predicate Unavoidable(t: Tables, i: Jobs.Identity) {
    i.revision.None? && (FullTarget(t, i) || HeadElsewhere(t, i))
  }

  /** A gating job of the version that holds it back under every head. */
  predicate Bars(t: Tables, version: Id, job: Id)
    requires job in t.jobs
  {
    t.jobs[job].identity.version == version && t.jobs[job].identity.gates && Unavoidable(t, t.jobs[job].identity)
  }

  lemma UnavoidableIsRelevant(t: Tables, i: Jobs.Identity)
    requires OneHeadPerTask(t.heads) && Unavoidable(t, i)
    ensures Relevant(t, i)
  {
  }

  // -------------------------------------------------------------------- a stuck job bars its version for good

  lemma StepKeepsUnavoidable(t: Tables, s: Statement, i: Jobs.Identity)
    requires Unavoidable(t, i)
    ensures Unavoidable(Step(t, s), i)
  {
    StepKeepsRecipes(t, s);
    if !FullTarget(t, i) {
      StepKeepsSelections(t, s);
      var h :| h in t.heads && t.heads[h].task == t.selections[i.selection].task && t.heads[h].version != i.version;
      StepUpdatesHead(t, s, h);
      assert Step(t, s).heads[h].task == t.heads[h].task && Step(t, s).heads[h].version == t.heads[h].version;
    }
  }

  lemma StepKeepsSelections(t: Tables, s: Statement)
    ensures forall k :: k in t.selections ==> k in Step(t, s).selections && Step(t, s).selections[k] == t.selections[k]
  {
  }

  lemma {:induction false} RunKeepsBar(t: Tables, statements: seq<Statement>, id: Id)
    requires id in t.jobs && Unavoidable(t, t.jobs[id].identity)
    ensures var last := Run(t, statements);
            id in last.jobs && last.jobs[id].identity == t.jobs[id].identity && Unavoidable(last, t.jobs[id].identity)
  {
    if statements != [] {
      var before, s := statements[..|statements| - 1], statements[|statements| - 1];
      RunKeepsBar(t, before, id);
      StepKeepsUnavoidable(Run(t, before), s, t.jobs[id].identity);
      StepKeepsIdentity(Run(t, before), s, id);
    }
  }

  /** A stuck job that counts under every head keeps its version from ever being promoted. */
  lemma StuckJobBars(t: Tables, statements: seq<Statement>, version: Id, id: Id)
    requires Valid(t) && version !in t.promoted && id in t.jobs && Bars(t, version, id) && !CanSucceed(t, id)
    ensures version !in Run(t, statements).promoted
  {
    if version in Run(t, statements).promoted {
      var k := PromotedWhenReady(t, statements, version);
      var upTo := statements[..k] + [statements[k]];
      RunTwice(t, statements[..k], [statements[k]]);
      RunOne(Run(t, statements[..k]), statements[k]);
      RunKeepsBar(t, upTo, id);
      StuckForever(t, upTo, id);
      RunKeepsValid(t, upTo);
      UnavoidableIsRelevant(Run(t, upTo), t.jobs[id].identity);
      assert HoldsBack(Run(t, upTo), version, id);
    }
  }

  // -------------------------------------------------------------------- moving heads away

  function TaskOf(t: Tables, job: Id): Id
    requires job in t.jobs && t.jobs[job].identity.selection in t.selections
  {
    t.selections[t.jobs[job].identity.selection].task
  }

  /** Only the unavoidable jobs of the review count for the version. */
  ghost predicate Cleared(t: Tables, version: Id, task: Id) {
    forall j :: j in t.jobs && t.jobs[j].identity.selection in t.selections && TaskOf(t, j) == task
                && t.jobs[j].identity.version == version && !Unavoidable(t, t.jobs[j].identity) ==>
      !Relevant(t, t.jobs[j].identity)
  }

  /** Only heads and revisions differ. */
  ghost predicate MovesHeads(t: Tables, next: Tables) {
    next == t.(heads := next.heads, revisions := next.revisions)
  }

  /** The only head of the review that differs is one of this version. */
  ghost predicate MovesHeadOf(t: Tables, next: Tables, version: Id, task: Id) {
    && MovesHeads(t, next)
    && (forall h :: h in t.heads && t.heads[h].task != task ==> h in next.heads && next.heads[h] == t.heads[h])
    && (forall h :: h in next.heads && next.heads[h].task != task ==> h in t.heads && next.heads[h] == t.heads[h])
    && (forall h :: h in next.heads && next.heads[h].task == task ==> next.heads[h].version == version)
    && (forall h :: h in t.heads && t.heads[h].task == task ==> t.heads[h].version == version)
  }

  /** The reviews of other heads are as they were. */
  lemma OthersStayCleared(t: Tables, next: Tables, version: Id, task: Id, other: Id)
    requires MovesHeadOf(t, next, version, task) && other != task && Cleared(t, version, other)
    ensures Cleared(next, version, other)
  {
    forall j | j in next.jobs && next.jobs[j].identity.selection in next.selections && TaskOf(next, j) == other
               && next.jobs[j].identity.version == version && !Unavoidable(next, next.jobs[j].identity)
      ensures !Relevant(next, next.jobs[j].identity)
    {
      var i := next.jobs[j].identity;
      assert HeadElsewhere(next, i) <==> HeadElsewhere(t, i);
      assert HasHead(next, i) <==> HasHead(t, i);
      assert HasHeadAt(next, i) <==> HasHeadAt(t, i);
    }
  }

  /** Unavoidable jobs of the version stay exactly what they were. */
  lemma BarsStay(t: Tables, next: Tables, version: Id, task: Id, j: Id)
    requires MovesHeadOf(t, next, version, task) && j in t.jobs
    ensures Bars(next, version, j) <==> Bars(t, version, j)
  {
    var i := t.jobs[j].identity;
    if i.version == version {
      assert HeadElsewhere(next, i) <==> HeadElsewhere(t, i);
    }
  }

  lemma HeadStep(t: Tables, id: Id, h: Heads.Head)
    requires HeadUpdateAdmitted(t, id, h)
    ensures Step(t, UpdateHead(id, h)) == t.(heads := t.heads[id := h])
  {
  }

  lemma NewHeadStep(t: Tables, id: Id, h: Heads.Head)
    requires HeadInsertAdmitted(t, id, h)
    ensures Step(t, InsertHead(id, h)) == t.(heads := t.heads[id := h])
  {
  }

  lemma RevisionStep(t: Tables, id: Id, r: Revision)
    requires RevisionAdmitted(t, id, r)
    ensures Step(t, InsertRevision(id, r)) == t.(revisions := t.revisions[id := r])
  {
  }

  /** What the foreign keys of a new revision and a new head ask for. */
  predicate Movable(t: Tables, version: Id, task: Id, mark: Id) {
    task in t.reviews && version in t.versions && mark in t.assets
  }

  /** A revision that no row mentions. */
  lemma NewRevision(t: Tables, version: Id, task: Id, mark: Id) returns (id: Id, r: Revision)
    requires Movable(t, version, task, mark)
    ensures RevisionAdmitted(t, id, r) && r.task == task && r.version == version
    ensures forall j :: j in t.jobs ==> t.jobs[j].identity.revision != Some(id)
  {
    var taken := set j | j in t.jobs && t.jobs[j].identity.revision.Some? :: t.jobs[j].identity.revision.value;
    id := Unused(t.revisions.Keys + taken);
    var numbers := set q | q in t.revisions && t.revisions[q].no >= 0 :: t.revisions[q].no as Id;
    var no := Unused(numbers + {0});
    r := Revision(task, version, no, mark);
    forall j | j in t.jobs
      ensures t.jobs[j].identity.revision != Some(id)
    {
      if t.jobs[j].identity.revision.Some? { assert t.jobs[j].identity.revision.value in taken; }
    }
    forall q | q in t.revisions
      ensures t.revisions[q].no != no
    {
      if t.revisions[q].no >= 0 { assert t.revisions[q].no as Id in numbers; }
    }
  }

  /** A head that points at no job's revision clears its review. */
  lemma HeadClears(t: Tables, version: Id, task: Id, id: Id, revision: Id)
    requires OneHeadPerTask(t.heads) && id in t.heads && t.heads[id].task == task && t.heads[id].version == version
    requires t.heads[id].active in {None, Some(revision)} && t.heads[id].pending in {None, Some(revision)}
    requires forall j :: j in t.jobs ==> t.jobs[j].identity.revision != Some(revision)
    ensures Cleared(t, version, task)
  {
    forall j | j in t.jobs && t.jobs[j].identity.selection in t.selections && TaskOf(t, j) == task
               && t.jobs[j].identity.version == version && !Unavoidable(t, t.jobs[j].identity)
      ensures !Relevant(t, t.jobs[j].identity)
    {
      var i := t.jobs[j].identity;
      if i.revision.None? {
        assert HasHead(t, i);
      } else {
        forall h | h in t.heads && t.heads[h].task == task
          ensures h == id
        {
        }
      }
    }
  }

  /** The tables with a new revision and a head that points at it. */
  function Moved(t: Tables, revision: Id, r: Revision, id: Id, h: Heads.Head): Tables {
    t.(revisions := t.revisions[revision := r], heads := t.heads[id := h])
  }

  lemma MovedClears(t: Tables, version: Id, task: Id, revision: Id, r: Revision, id: Id, h: Heads.Head)
    requires OneHeadPerTask(t.heads) && h.task == task && h.version == version
    requires id in t.heads ==> t.heads[id].task == task && t.heads[id].version == version
    requires forall g :: g in t.heads && t.heads[g].task == task ==> g == id
    requires h.active in {None, Some(revision)} && h.pending in {None, Some(revision)}
    requires forall j :: j in t.jobs ==> t.jobs[j].identity.revision != Some(revision)
    ensures MovesHeadOf(t, Moved(t, revision, r, id, h), version, task)
    ensures Cleared(Moved(t, revision, r, id, h), version, task)
  {
    HeadClears(Moved(t, revision, r, id, h), version, task, id, revision);
  }

  /** Without a head, the review gets one that proposes a new revision. */
  lemma ClearByInsert(t: Tables, version: Id, task: Id, mark: Id) returns (statements: seq<Statement>)
    requires Valid(t) && Movable(t, version, task, mark) && forall h :: h in t.heads ==> t.heads[h].task != task
    ensures MovesHeadOf(t, Run(t, statements), version, task) && Cleared(Run(t, statements), version, task)
  {
    var revision, r := NewRevision(t, version, task, mark);
    var id := Unused(t.heads.Keys);
    var h := Heads.Head(task, version, None, Some(revision), 1);
    statements := [InsertRevision(revision, r)] + [InsertHead(id, h)];
    RunTwoStatements(t, InsertRevision(revision, r), InsertHead(id, h));
    RevisionStep(t, revision, r);
    NewHeadStep(t.(revisions := t.revisions[revision := r]), id, h);
    MovedClears(t, version, task, revision, r, id, h);
  }

  /** A pending revision is withdrawn. */
  lemma Withdraw(t: Tables, id: Id) returns (statements: seq<Statement>, h: Heads.Head)
    requires Valid(t) && id in t.heads
    ensures Run(t, statements) == t.(heads := t.heads[id := h])
    ensures h.task == t.heads[id].task && h.version == t.heads[id].version && h.active == t.heads[id].active && h.pending.None?
    ensures Heads.Checks(h) && PointsAtOwn(t, h)
  {
    h := t.heads[id];
    if h.pending.None? {
      statements := [];
      assert t.heads[id := h] == t.heads;
    } else {
      h := h.(pending := None, lockVersion := h.lockVersion + 1);
      statements := [UpdateHead(id, h)];
      RunOne(t, UpdateHead(id, h));
      HeadStep(t, id, h);
    }
  }

  /** A head without a pending revision proposes a new one and activates it. */
  lemma Replace(t: Tables, id: Id, revision: Id, r: Revision) returns (statements: seq<Statement>, h: Heads.Head)
    requires Valid(t) && id in t.heads && t.heads[id].pending.None?
    requires RevisionAdmitted(t, revision, r) && r.task == t.heads[id].task && r.version == t.heads[id].version
    ensures Run(t, statements) == Moved(t, revision, r, id, h)
    ensures h.task == t.heads[id].task && h.version == t.heads[id].version && h.active == Some(revision) && h.pending.None?
  {
    var was := t.heads[id];
    var proposed := was.(pending := Some(revision), lockVersion := was.lockVersion + 1);
    h := proposed.(active := Some(revision), pending := None, lockVersion := was.lockVersion + 2);
    var first := t.(revisions := t.revisions[revision := r]);
    var second := first.(heads := first.heads[id := proposed]);
    assert PointsAtOwn(t, was) && Heads.Checks(was);
    RevisionStep(t, revision, r);
    HeadStep(first, id, proposed);
    HeadStep(second, id, h);
    assert second.heads[id := h] == t.heads[id := h];
    statements := [InsertRevision(revision, r)] + [UpdateHead(id, proposed)] + [UpdateHead(id, h)];
    RunTwoStatements(t, InsertRevision(revision, r), UpdateHead(id, proposed));
    RunTwice(t, [InsertRevision(revision, r)] + [UpdateHead(id, proposed)], [UpdateHead(id, h)]);
    RunOne(second, UpdateHead(id, h));
  }

  /** The head of the version is moved to a new revision. */
  lemma ClearByUpdate(t: Tables, version: Id, task: Id, mark: Id, id: Id) returns (statements: seq<Statement>)
    requires Valid(t) && Movable(t, version, task, mark) && id in t.heads && t.heads[id].task == task && t.heads[id].version == version
    ensures MovesHeadOf(t, Run(t, statements), version, task) && Cleared(Run(t, statements), version, task)
  {
    var withdrawn, w := Withdraw(t, id);
    var mid := t.(heads := t.heads[id := w]);
    RunKeepsValid(t, withdrawn);
    var revision, r := NewRevision(mid, version, task, mark);
    var moved, h := Replace(mid, id, revision, r);
    statements := withdrawn + moved;
    RunTwice(t, withdrawn, moved);
    assert Moved(mid, revision, r, id, h) == Moved(t, revision, r, id, h);
    MovedClears(t, version, task, revision, r, id, h);
  }

  /** Moving heads changes neither which jobs are unavoidable nor what was cleared. */
  ghost predicate KeepsBars(t: Tables, next: Tables, version: Id) {
    && MovesHeads(t, next)
    && (forall j :: j in t.jobs ==> (Bars(next, version, j) <==> Bars(t, version, j)))
    && forall other :: Cleared(t, version, other) ==> Cleared(next, version, other)
  }

  lemma MovedKeepsBars(t: Tables, next: Tables, version: Id, task: Id)
    requires MovesHeadOf(t, next, version, task) && Cleared(next, version, task)
    ensures KeepsBars(t, next, version)
  {
    forall j | j in t.jobs
      ensures Bars(next, version, j) <==> Bars(t, version, j)
    {
      BarsStay(t, next, version, task, j);
    }
    forall other | Cleared(t, version, other)
      ensures Cleared(next, version, other)
    {
      if other != task { OthersStayCleared(t, next, version, task, other); }
    }
  }

  /** A head of another version leaves its review with unavoidable jobs only. */
  lemma ElsewhereIsCleared(t: Tables, version: Id, id: Id)
    requires OneHeadPerTask(t.heads) && id in t.heads && t.heads[id].version != version
    ensures Cleared(t, version, t.heads[id].task)
  {
    forall h | h in t.heads && t.heads[h].task == t.heads[id].task
      ensures h == id
    {
    }
  }

  lemma ClearOne(t: Tables, version: Id, task: Id, mark: Id) returns (statements: seq<Statement>)
    requires Valid(t) && Movable(t, version, task, mark)
    ensures KeepsBars(t, Run(t, statements), version) && Cleared(Run(t, statements), version, task)
  {
    if forall h :: h in t.heads ==> t.heads[h].task != task {
      statements := ClearByInsert(t, version, task, mark);
      MovedKeepsBars(t, Run(t, statements), version, task);
    } else {
      var id :| id in t.heads && t.heads[id].task == task;
      if t.heads[id].version == version {
        statements := ClearByUpdate(t, version, task, mark, id);
        MovedKeepsBars(t, Run(t, statements), version, task);
      } else {
        statements := [];
        ElsewhereIsCleared(t, version, id);
      }
    }
  }

  lemma KeepsBarsTwice(t: Tables, mid: Tables, next: Tables, version: Id)
    requires KeepsBars(t, mid, version) && KeepsBars(mid, next, version)
    ensures KeepsBars(t, next, version)
  {
  }

  ghost predicate ClearedBut(t: Tables, version: Id, todo: set<Id>) {
    forall task :: task !in todo ==> Cleared(t, version, task)
  }

  lemma ClearNext(t: Tables, version: Id, todo: set<Id>, task: Id, mark: Id) returns (statements: seq<Statement>)
    requires Valid(t) && Movable(t, version, task, mark) && ClearedBut(t, version, todo)
    ensures var next := Run(t, statements);
            Valid(next) && KeepsBars(t, next, version) && ClearedBut(next, version, todo - {task})
  {
    statements := ClearOne(t, version, task, mark);
    RunKeepsValid(t, statements);
  }

  lemma {:induction false} ClearAll(t: Tables, version: Id, todo: set<Id>, mark: Id) returns (statements: seq<Statement>)
    requires Valid(t) && ClearedBut(t, version, todo) && todo <= t.reviews && version in t.versions && mark in t.assets
    ensures KeepsBars(t, Run(t, statements), version) && ClearedBut(Run(t, statements), version, {})
    decreases todo
  {
    statements := [];
    if todo != {} {
      var task :| task in todo;
      var first := ClearNext(t, version, todo, task, mark);
      var mid := Run(t, first);
      var rest := ClearAll(mid, version, todo - {task}, mark);
      RunTwice(t, first, rest);
      KeepsBarsTwice(t, mid, Run(mid, rest), version);
      statements := first + rest;
    }
  }

  // -------------------------------------------------------------------- finishing what is left

  /** Every unfinished job that holds the version back is unavoidable. */
  ghost predicate OnlyBarsHold(t: Tables, version: Id) {
    forall j :: j in t.jobs && HoldsBack(t, version, j) && !t.jobs[j].state.Succeeded? ==> Bars(t, version, j)
  }

  ghost predicate BarsCanSucceed(t: Tables, version: Id) {
    forall j :: j in t.jobs && Bars(t, version, j) ==> CanSucceed(t, j)
  }

  function UnfinishedBars(t: Tables, version: Id): set<Id> {
    set j | j in t.jobs && Bars(t, version, j) && !t.jobs[j].state.Succeeded?
  }

  lemma AllClearedOnlyBars(t: Tables, version: Id)
    requires JobsSound(t) && ClearedBut(t, version, {})
    ensures OnlyBarsHold(t, version)
  {
    forall j | j in t.jobs && HoldsBack(t, version, j) && !t.jobs[j].state.Succeeded?
      ensures Bars(t, version, j)
    {
      assert JobSound(t, j) && Cleared(t, version, TaskOf(t, j));
    }
  }

  lemma MovingKeepsSuccess(t: Tables, next: Tables, version: Id)
    requires KeepsBars(t, next, version) && BarsCanSucceed(t, version)
    ensures BarsCanSucceed(next, version)
  {
    forall j | j in next.jobs && Bars(next, version, j)
      ensures CanSucceed(next, j)
    {
      assert OutputsOf(next, j) == OutputsOf(t, j);
    }
  }

  /** Work on one job leaves the others as they are. */
  lemma WorkLeavesOthers(t: Tables, next: Tables, id: Id, j: Id)
    requires id in t.jobs && WorksOn(t, next, id) && j in t.jobs && j != id
    ensures CanSucceed(next, j) <==> CanSucceed(t, j)
  {
    assert OutputsOf(next, j) == OutputsOf(t, j);
  }

  lemma WorkKeepsBars(t: Tables, next: Tables, version: Id, id: Id, j: Id)
    requires id in t.jobs && WorksOn(t, next, id) && j in t.jobs
    ensures Bars(next, version, j) <==> Bars(t, version, j)
    ensures HoldsBack(next, version, j) <==> HoldsBack(t, version, j)
  {
    RelevanceFrame(t, next, t.jobs[j].identity);
  }

  lemma WorkKeepsOnlyBars(t: Tables, next: Tables, version: Id, id: Id)
    requires id in t.jobs && WorksOn(t, next, id) && next.jobs[id].state.Succeeded? && OnlyBarsHold(t, version)
    ensures OnlyBarsHold(next, version)
  {
    forall j | j in next.jobs && HoldsBack(next, version, j) && !next.jobs[j].state.Succeeded?
      ensures Bars(next, version, j)
    {
      WorkKeepsBars(t, next, version, id, j);
    }
  }

  lemma WorkKeepsSuccess(t: Tables, next: Tables, version: Id, id: Id)
    requires id in t.jobs && WorksOn(t, next, id) && next.jobs[id].state.Succeeded? && Valid(next) && BarsCanSucceed(t, version)
    ensures BarsCanSucceed(next, version)
  {
    SucceededCanSucceed(next, id);
    forall j | j in next.jobs && Bars(next, version, j)
      ensures CanSucceed(next, j)
    {
      WorkKeepsBars(t, next, version, id, j);
      if j != id { WorkLeavesOthers(t, next, id, j); }
    }
  }

  lemma WorkFinishesOne(t: Tables, next: Tables, version: Id, id: Id)
    requires id in t.jobs && WorksOn(t, next, id) && next.jobs[id].state.Succeeded?
    ensures UnfinishedBars(next, version) == UnfinishedBars(t, version) - {id}
  {
    forall j | j in t.jobs
      ensures Bars(next, version, j) <==> Bars(t, version, j)
      ensures j != id ==> next.jobs[j] == t.jobs[j]
    {
      WorkKeepsBars(t, next, version, id, j);
    }
  }

  lemma NothingLeft(t: Tables, version: Id)
    requires OnlyBarsHold(t, version) && UnfinishedBars(t, version) == {}
    ensures AllFinished(t, version)
  {
    forall j | j in t.jobs && HoldsBack(t, version, j)
      ensures t.jobs[j].state.Succeeded?
    {
      assert j !in UnfinishedBars(t, version);
    }
  }

  /** Only unavoidable jobs hold the rendering version back, and each can succeed. */
  ghost predicate Promotable(t: Tables, version: Id) {
    && Valid(t) && CurrentIn(t.releases, t.versions, version, Rendering)
    && OnlyBarsHold(t, version) && BarsCanSucceed(t, version)
  }

  /** One of them can be finished, and that promotes the version or leaves fewer of them. */
  lemma FinishOne(t: Tables, version: Id, id: Id) returns (statements: seq<Statement>)
    requires Promotable(t, version) && id in UnfinishedBars(t, version)
    ensures var next := Run(t, statements);
            || version in next.promoted
            || (Promotable(next, version) && UnfinishedBars(next, version) == UnfinishedBars(t, version) - {id}
                && !AllFinished(next, version))
  {
    assert JobSound(t, id);
    statements := FinishJob(t, id);
    var next := Run(t, statements);
    if version !in next.promoted {
      RunKeepsValid(t, statements);
      WorkKeepsOnlyBars(t, next, version, id);
      WorkKeepsSuccess(t, next, version, id);
      WorkFinishesOne(t, next, version, id);
    }
  }

  /** Finishing the unavoidable jobs, of which there is one at least, promotes the version. */
  lemma {:induction false} FinishAll(t: Tables, version: Id, todo: set<Id>) returns (statements: seq<Statement>)
    requires Promotable(t, version) && todo == UnfinishedBars(t, version) && todo != {}
    ensures version in Run(t, statements).promoted
    decreases todo
  {
    var id :| id in todo;
    statements := FinishOne(t, version, id);
    var next := Run(t, statements);
    if version !in next.promoted {
      if UnfinishedBars(next, version) == {} { NothingLeft(next, version); }
      var rest := FinishAll(next, version, todo - {id});
      RunTwice(t, statements, rest);
      statements := statements + rest;
    }
  }

  // -------------------------------------------------------------------- the last success

  function FullRecipe(version: Id, key: string): Recipe {
    Recipe(key, version, [Full], 1, Digest('0'), None, None, None)
  }

  function NewJob(version: Id, selection: Id, recipe: Id, key: string): Jobs.Job {
    Jobs.Job(Jobs.Identity(selection, recipe, version, None, true, key, "", Digest('0'), 1, 0, 0, 0),
             Jobs.Requested, 0, 1, 1, None, None, None, None, None, None, None, None)
  }

  /** A logical key that neither a recipe nor a job has. */
  predicate FreeKey(t: Tables, key: string) {
    && |key| == 64
    && (forall r :: r in t.recipes ==> t.recipes[r].logicalKey != key)
    && (forall j :: j in t.jobs ==> t.jobs[j].identity.logicalKey != key)
  }

  /** The tables with a new full-target job. */
  function Extended(t: Tables, version: Id, selection: Id, recipe: Id, id: Id, key: string): Tables {
    t.(recipes := t.recipes[recipe := FullRecipe(version, key)], jobs := t.jobs[id := NewJob(version, selection, recipe, key)])
  }

  /** Tables of fewer than 2^64 recipes and jobs leave a logical key free. */
  lemma SmallTablesHaveFreeKey(t: Tables)
    requires |t.recipes| + |t.jobs| < Pow2(64)
    ensures exists key :: FreeKey(t, key)
  {
    var recipes := set r | r in t.recipes.Keys :: t.recipes[r].logicalKey;
    var jobs := set j | j in t.jobs.Keys :: t.jobs[j].identity.logicalKey;
    ImageIsSmaller(t.recipes.Keys, recipes, (r: Id) requires r in t.recipes => t.recipes[r].logicalKey);
    ImageIsSmaller(t.jobs.Keys, jobs, (j: Id) requires j in t.jobs => t.jobs[j].identity.logicalKey);
    var key := FreeText(recipes + jobs, 64);
    KeyIsFree(t, key, recipes, jobs);
  }

  lemma KeyIsFree(t: Tables, key: string, recipes: set<string>, jobs: set<string>)
    requires recipes == set r | r in t.recipes.Keys :: t.recipes[r].logicalKey
    requires jobs == set j | j in t.jobs.Keys :: t.jobs[j].identity.logicalKey
    requires |key| == 64 && key !in recipes + jobs
    ensures FreeKey(t, key)
  {
    forall r | r in t.recipes
      ensures t.recipes[r].logicalKey != key
    {
      assert t.recipes[r].logicalKey in recipes;
    }
    forall j | j in t.jobs
      ensures t.jobs[j].identity.logicalKey != key
    {
      assert t.jobs[j].identity.logicalKey in jobs;
    }
  }

  lemma RecipeStep(t: Tables, id: Id, r: Recipe)
    requires RecipeAdmitted(t, id, r)
    ensures Step(t, InsertRecipe(id, r)) == t.(recipes := t.recipes[id := r])
  {
  }

  lemma NewJobStep(t: Tables, id: Id, job: Jobs.Job)
    requires JobInsertAdmitted(t, id, job)
    ensures Step(t, InsertJob(id, job)) == t.(jobs := t.jobs[id := job])
  {
  }

  lemma NewJobFits(t: Tables, version: Id, selection: Id, recipe: Id, id: Id, key: string)
    requires Promotable(t, version) && selection in t.selections && t.selections[selection].version == version
    requires recipe !in t.recipes && id !in t.jobs && FreeKey(t, key)
    ensures RecipeAdmitted(t, recipe, FullRecipe(version, key))
    ensures JobInsertAdmitted(t.(recipes := t.recipes[recipe := FullRecipe(version, key)]), id, NewJob(version, selection, recipe, key))
  {
    forall j | j in t.jobs
      ensures t.jobs[j].identity.recipe != recipe
    {
      assert JobSound(t, j);
    }
  }

  lemma ExtensionKeepsJob(t: Tables, version: Id, selection: Id, recipe: Id, id: Id, key: string, j: Id)
    requires j in t.jobs && JobSound(t, j) && recipe !in t.recipes && id !in t.jobs
    ensures var next := Extended(t, version, selection, recipe, id, key);
            && next.jobs[j] == t.jobs[j]
            && (Bars(next, version, j) <==> Bars(t, version, j))
            && (HoldsBack(next, version, j) <==> HoldsBack(t, version, j))
            && (CanSucceed(next, j) <==> CanSucceed(t, j))
  {
    var next, i := Extended(t, version, selection, recipe, id, key), t.jobs[j].identity;
    assert OutputsOf(next, j) == OutputsOf(t, j);
    assert FullTarget(next, i) <==> FullTarget(t, i);
    assert HasHead(next, i) <==> HasHead(t, i);
    assert HasHeadAt(next, i) <==> HasHeadAt(t, i);
  }

  lemma NewJobBars(t: Tables, version: Id, selection: Id, recipe: Id, id: Id, key: string)
    requires Valid(t) && recipe !in t.recipes && id !in t.jobs
    ensures var next := Extended(t, version, selection, recipe, id, key);
            Bars(next, version, id) && CanSucceed(next, id) && id in UnfinishedBars(next, version)
  {
    var next := Extended(t, version, selection, recipe, id, key);
    forall o | o in t.outputs
      ensures t.outputs[o].job != id
    {
      assert OutputSound(t, o);
    }
    assert OutputsOf(next, id) == {};
    assert 'f' in "full" && Recordable(FullRecipe(version, key)) == {Full};
  }

  lemma ExtensionPromotable(t: Tables, version: Id, selection: Id, recipe: Id, id: Id, key: string)
    requires Promotable(t, version) && recipe !in t.recipes && id !in t.jobs
    requires Valid(Extended(t, version, selection, recipe, id, key))
    ensures Promotable(Extended(t, version, selection, recipe, id, key), version)
  {
    NewJobBars(t, version, selection, recipe, id, key);
    forall j | j in t.jobs
      ensures JobSound(t, j)
    {
    }
    var next := Extended(t, version, selection, recipe, id, key);
    forall j | j in next.jobs
      ensures HoldsBack(next, version, j) && !next.jobs[j].state.Succeeded? ==> Bars(next, version, j)
      ensures Bars(next, version, j) ==> CanSucceed(next, j)
    {
      if j != id { ExtensionKeepsJob(t, version, selection, recipe, id, key, j); }
    }
  }

  lemma AddJobRuns(t: Tables, version: Id, selection: Id, recipe: Id, id: Id, key: string) returns (statements: seq<Statement>)
    requires RecipeAdmitted(t, recipe, FullRecipe(version, key))
    requires JobInsertAdmitted(t.(recipes := t.recipes[recipe := FullRecipe(version, key)]), id, NewJob(version, selection, recipe, key))
    ensures Run(t, statements) == Extended(t, version, selection, recipe, id, key)
  {
    var job := NewJob(version, selection, recipe, key);
    statements := [InsertRecipe(recipe, FullRecipe(version, key))] + [InsertJob(id, job)];
    RunTwoStatements(t, InsertRecipe(recipe, FullRecipe(version, key)), InsertJob(id, job));
    RecipeStep(t, recipe, FullRecipe(version, key));
    NewJobStep(t.(recipes := t.recipes[recipe := FullRecipe(version, key)]), id, job);
  }

  /** A new gating job can be asked for, so that there is a success to wait for. */
  lemma AddJob(t: Tables, version: Id, selection: Id) returns (statements: seq<Statement>)
    requires Promotable(t, version) && selection in t.selections && t.selections[selection].version == version
    requires exists key :: FreeKey(t, key)
    ensures Promotable(Run(t, statements), version) && UnfinishedBars(Run(t, statements), version) != {}
  {
    var recipe := Unused(t.recipes.Keys);
    var id := Unused(t.jobs.Keys);
    var key :| FreeKey(t, key);
    NewJobFits(t, version, selection, recipe, id, key);
    statements := AddJobRuns(t, version, selection, recipe, id, key);
    RunKeepsValid(t, statements);
    NewJobBars(t, version, selection, recipe, id, key);
    ExtensionPromotable(t, version, selection, recipe, id, key);
  }

  /** The run: move the heads, ask for one more job, and finish what is left. */
  lemma PromoteBySomeRun(t: Tables, version: Id, selection: Id) returns (statements: seq<Statement>)
    requires Valid(t) && CurrentIn(t.releases, t.versions, version, Rendering) && BarsCanSucceed(t, version)
    requires selection in t.selections && t.selections[selection].version == version && exists key :: FreeKey(t, key)
    ensures version in Run(t, statements).promoted
  {
    var tasks := set s | s in t.selections :: t.selections[s].task;
    forall s | s in t.selections
      ensures t.selections[s].task in t.reviews && t.selections[s].asset in t.assets
    {
      assert SelectionKeyed(t.selections[s], t.reviews, t.assets, t.versions);
    }
    var moved := ClearAll(t, version, tasks, t.selections[selection].asset);
    var cleared := Run(t, moved);
    RunKeepsValid(t, moved);
    AllClearedOnlyBars(cleared, version);
    MovingKeepsSuccess(t, cleared, version);
    var key :| FreeKey(t, key);
    assert FreeKey(cleared, key);
    var added := AddJob(cleared, version, selection);
    var ready := Run(cleared, added);
    var finished := FinishAll(ready, version, UnfinishedBars(ready, version));
    RunTwice(t, moved, added);
    RunTwice(t, moved + added, finished);
    statements := moved + added + finished;
  }

  /**
    Some run promotes a rendering version with a selection exactly when every gating job that
    no head can make irrelevant is able to succeed.
  */
  lemma PromotableExactly(t: Tables, version: Id, selection: Id)
    requires Valid(t) && CurrentIn(t.releases, t.versions, version, Rendering)
    requires selection in t.selections && t.selections[selection].version == version && exists key :: FreeKey(t, key)
    ensures (forall j :: j in t.jobs && Bars(t, version, j) ==> CanSucceed(t, j)) <==>
            exists statements :: version in Run(t, statements).promoted
  {
    if forall j :: j in t.jobs && Bars(t, version, j) ==> CanSucceed(t, j) {
      var statements := PromoteBySomeRun(t, version, selection);
      assert version in Run(t, statements).promoted;
    } else {
      var j :| j in t.jobs && Bars(t, version, j) && !CanSucceed(t, j);
      forall statements
        ensures version !in Run(t, statements).promoted
      {
        StuckJobBars(t, statements, version, j);
      }
    }
  }
}
