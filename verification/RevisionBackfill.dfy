/**
  The backfill of migration 0027: it makes the latest legacy X-teaser outputs of a task its
  first active revision, before the guards on revisions, members and heads exist.
*/
module RevisionBackfill {
  import opened Basics
  import opened Rendering
  import Heads
  import Jobs

  /** A selected row: a release selection that is also an X selection of its task. */
  datatype Picked = Picked(id: Id, row: Selected)

  /** `position` is None where _watermark_position does not recognise the configuration. */
  datatype Candidate = Candidate(selection: Id, output: Id, recordedAt: int, recipe: Id, watermark: Id, position: Option<Position>)

  // -------------------------------------------------------------------- the two queries

  /** The release selections of the X selections, given as (task, asset) pairs; the order is not used. */
  ghost predicate PickedQuery(t: Tables, xSelections: set<(Id, Id)>, picked: seq<Picked>) {
    && (forall i :: 0 <= i < |picked| ==>
          && picked[i].id in t.selections && picked[i].row == t.selections[picked[i].id]
          && (picked[i].row.task, picked[i].row.asset) in xSelections)
    && (forall s :: s in t.selections && (t.selections[s].task, t.selections[s].asset) in xSelections ==>
          Picked(s, t.selections[s]) in picked)
    && (forall i, j :: 0 <= i < j < |picked| ==> picked[i] != picked[j])
  }

  /** The output is an X teaser of a succeeded job with a watermarked recipe. */
  predicate CandidateOf(t: Tables, c: Candidate) {
    && c.output in t.outputs && t.outputs[c.output].job in t.jobs
    && var o := t.outputs[c.output];
    && var job := t.jobs[o.job];
    && job.state.Succeeded? && o.target == XTeaser && o.recordedAt == c.recordedAt
    && job.identity.selection == c.selection && job.identity.recipe == c.recipe
    && c.recipe in t.recipes && t.recipes[c.recipe].watermark == Some(c.watermark)
    && c.position == (if t.recipes[c.recipe].position.Some? && !t.recipes[c.recipe].position.value.OtherPosition?
                      then t.recipes[c.recipe].position else None)
  }

  predicate XSelected(t: Tables, xSelections: set<(Id, Id)>, s: Id) {
    s in t.selections && (t.selections[s].task, t.selections[s].asset) in xSelections
  }

  /** The rows of the candidate query. */
  ghost predicate CandidateQuery(t: Tables, xSelections: set<(Id, Id)>, candidates: seq<Candidate>) {
    && (forall c :: c in candidates ==> CandidateOf(t, c))
    && (forall c :: CandidateOf(t, c) && XSelected(t, xSelections, c.selection) ==> c in candidates)
    && Descending(candidates)
  }

  predicate NotAfter(c: Candidate, d: Candidate) {
    c.recordedAt < d.recordedAt || (c.recordedAt == d.recordedAt && c.output <= d.output)
  }

  /** ORDER BY ..., recorded_at DESC, id DESC within a selection. */
  predicate Descending(candidates: seq<Candidate>) {
    forall i, j :: 0 <= i < j < |candidates| && candidates[i].selection == candidates[j].selection ==>
      NotAfter(candidates[j], candidates[i])
  }

  // -------------------------------------------------------------------- the two dictionaries

  /** The rows of one task in their order. */
  function OfTask(picked: seq<Picked>, task: Id): seq<Picked> {
    if picked == [] then []
    else
      var before, last := OfTask(picked[..|picked| - 1], task), picked[|picked| - 1];
      if last.row.task == task then before + [last] else before
  }

  /** `selected_by_task[task].append(row)` over a defaultdict. */
  method GroupByTask(picked: seq<Picked>) returns (byTask: map<Id, seq<Picked>>)
    ensures forall task :: task in byTask <==> OfTask(picked, task) != []
    ensures forall task :: task in byTask ==> byTask[task] == OfTask(picked, task)
  {
    byTask := map[];
    for n := 0 to |picked|
      invariant forall task :: task in byTask <==> OfTask(picked[..n], task) != []
      invariant forall task :: task in byTask ==> byTask[task] == OfTask(picked[..n], task)
    {
      assert picked[..n + 1][..n] == picked[..n];
      var task := picked[n].row.task;
      var rows := if task in byTask then byTask[task] else [];
      byTask := byTask[task := rows + [picked[n]]];
    }
    assert picked[..|picked|] == picked;
  }

  /** The latest candidate of every selection that has one. */
  ghost predicate LatestCandidates(first: map<Id, Candidate>, candidates: seq<Candidate>) {
    && (forall s :: s in first ==> first[s] in candidates && first[s].selection == s)
    && (forall c :: c in candidates ==> c.selection in first && NotAfter(c, first[c.selection]))
  }

  /** `candidate_by_selection.setdefault(selection, row)` keeps the first row, which is the latest. */
  method LatestBySetdefault(candidates: seq<Candidate>) returns (first: map<Id, Candidate>)
    requires Descending(candidates)
    ensures LatestCandidates(first, candidates)
  {
    first := map[];
    for n := 0 to |candidates|
      invariant forall s :: s in first ==> first[s] in candidates[..n] && first[s].selection == s
      invariant forall i :: 0 <= i < n ==> candidates[i].selection in first && NotAfter(candidates[i], first[candidates[i].selection])
    {
      var c := candidates[n];
      if c.selection !in first {
        first := first[c.selection := c];
      }
    }
  }

  // -------------------------------------------------------------------- one task

  /** Every row has a candidate with a known position, all with one watermark. */
  predicate Convertible(rows: seq<Picked>, first: map<Id, Candidate>) {
    rows != [] && forall i :: 0 <= i < |rows| ==>
      && rows[i].id in first && rows[0].id in first
      && first[rows[i].id].watermark == first[rows[0].id].watermark
      && first[rows[i].id].position.Some?
  }

  /** The checks of the loop body, in its order: candidates, watermarks, positions. */
  method CheckTask(rows: seq<Picked>, first: map<Id, Candidate>) returns (valid: bool)
    requires rows != []
    ensures valid <==> Convertible(rows, first)
  {
    for n := 0 to |rows|
      invariant forall i :: 0 <= i < n ==> rows[i].id in first
    {
      if rows[n].id !in first { return false; }
    }
    var watermarks: set<Id> := {};
    for n := 0 to |rows|
      invariant n > 0 ==> first[rows[0].id].watermark in watermarks
      invariant forall i :: 0 <= i < n ==> first[rows[i].id].watermark in watermarks
      invariant forall w :: w in watermarks ==> exists i :: 0 <= i < n && first[rows[i].id].watermark == w
    {
      watermarks := watermarks + {first[rows[n].id].watermark};
    }
    if |watermarks| != 1 {
      OneWatermark(watermarks, first[rows[0].id].watermark);
      return false;
    }
    Singleton(watermarks, first[rows[0].id].watermark);
    for n := 0 to |rows|
      invariant forall i :: 0 <= i < n ==> first[rows[i].id].position.Some?
    {
      if first[rows[n].id].position.None? { return false; }
    }
    valid := true;
  }

  lemma Singleton(s: set<Id>, x: Id)
    requires |s| == 1 && x in s
    ensures s == {x}
  {
    SubsetOfEqualSize({x}, s);
  }

  /** A set that is not a singleton has another element. */
  lemma OneWatermark(s: set<Id>, x: Id)
    requires |s| != 1 && x in s
    ensures exists y :: y in s && y != x
  {
    var rest := s - {x};
    assert s == rest + {x} && |rest| != 0;
    var y :| y in rest;
  }

  /** Name-based UUIDs: of a task's revision and head, and of a revision's member. */
  datatype Names = Names(revision: Id -> Id, head: Id -> Id, member: (Id, Id) -> Id)

  /** Different names give different UUIDs. */
  ghost predicate Injective(n: Names) {
    && (forall a, b {:trigger n.revision(a), n.revision(b)} :: n.revision(a) == n.revision(b) ==> a == b)
    && (forall a, b {:trigger n.head(a), n.head(b)} :: n.head(a) == n.head(b) ==> a == b)
    && (forall a, b, c, d {:trigger n.member(a, b), n.member(c, d)} :: n.member(a, b) == n.member(c, d) ==> a == c && b == d)
  }

  function RevisionFor(rows: seq<Picked>, first: map<Id, Candidate>): Revision
    requires Convertible(rows, first)
  {
    Revision(rows[0].row.task, rows[0].row.version, 1, first[rows[0].id].watermark)
  }

  function MemberFor(n: Names, rows: seq<Picked>, first: map<Id, Candidate>, i: nat): Member
    requires Convertible(rows, first) && i < |rows|
  {
    var c := first[rows[i].id];
    Member(n.revision(rows[0].row.task), rows[0].row.task, rows[0].row.version, rows[i].id, rows[i].row.asset,
           rows[i].row.displayOrder, c.position.value, c.recipe, None, Some(c.output))
  }

  function HeadFor(n: Names, rows: seq<Picked>): Heads.Head
    requires rows != []
  {
    Heads.Head(rows[0].row.task, rows[0].row.version, Some(n.revision(rows[0].row.task)), None, 1)
  }

  // -------------------------------------------------------------------- inserting

  /** What the keys of migrations 0009 and the review invariant guarantee of the selections. */
  predicate SelectionKeys(t: Tables) {
    && (forall a :: a in t.selections ==> t.selections[a].displayOrder > 0)
    && forall a, b :: a in t.selections && b in t.selections && t.selections[a].task == t.selections[b].task ==>
         && t.selections[a].version == t.selections[b].version
         && (a != b ==> t.selections[a].displayOrder != t.selections[b].displayOrder)
  }

  /** The rows of one task: selections of that task, each once. */
  ghost predicate TaskRows(t: Tables, task: Id, rows: seq<Picked>) {
    && rows != []
    && (forall i :: 0 <= i < |rows| ==>
          rows[i].id in t.selections && rows[i].row == t.selections[rows[i].id] && rows[i].row.task == task
          && rows[i].row.displayOrder > 0)
    && (forall i, j :: 0 <= i < j < |rows| ==> rows[i].id != rows[j].id)
  }

  /** The tables differ from the original ones in revisions, members and heads, all of them named after their task. */
  ghost predicate Named(n: Names, t: Tables, now: Tables, tasks: set<Id>) {
    && now == t.(revisions := now.revisions, members := now.members, heads := now.heads)
    && (forall r :: r in now.revisions ==> now.revisions[r].task in tasks && r == n.revision(now.revisions[r].task))
    && (forall h :: h in now.heads ==> now.heads[h].task in tasks && h == n.head(now.heads[h].task))
    && (forall m :: m in now.members ==>
          && now.members[m].task in tasks && now.members[m].revision == n.revision(now.members[m].task)
          && m == n.member(now.members[m].revision, now.members[m].selection))
  }

  /** What the guard will look up for row i: its selection, the output of its candidate, and their recipe. */
  predicate Sourced(t: Tables, task: Id, rows: seq<Picked>, first: map<Id, Candidate>, i: nat)
    requires Convertible(rows, first) && i < |rows|
  {
    var row, c := rows[i].row, first[rows[i].id];
    && rows[i].id in t.selections && t.selections[rows[i].id] == row
    && row.task == task && row.version == rows[0].row.version && row.displayOrder > 0
    && c.output in t.outputs && t.outputs[c.output].selection == rows[i].id
    && t.outputs[c.output].recipe == c.recipe && t.outputs[c.output].target == XTeaser
    && c.recipe in t.recipes && t.recipes[c.recipe].version == row.version
    && t.recipes[c.recipe].watermark == Some(c.watermark) && t.recipes[c.recipe].position == c.position
    && !c.position.value.OtherPosition?
    && row.task in t.reviews && row.version in t.versions && c.watermark in t.assets
  }

  ghost predicate AllSourced(t: Tables, task: Id, rows: seq<Picked>, first: map<Id, Candidate>) {
    && Convertible(rows, first)
    && (forall i :: 0 <= i < |rows| ==> Sourced(t, task, rows, first, i))
    && (forall i, j :: 0 <= i < j < |rows| ==>
          rows[i].id != rows[j].id && rows[i].row.displayOrder != rows[j].row.displayOrder)
  }

  /** The queries and the job invariant give all of it. */
  lemma RowsAreSourced(t: Tables, task: Id, rows: seq<Picked>, first: map<Id, Candidate>)
    requires Valid(t) && SelectionKeys(t) && TaskRows(t, task, rows) && Convertible(rows, first)
    requires forall s :: s in first ==> CandidateOf(t, first[s]) && first[s].selection == s
    ensures AllSourced(t, task, rows, first)
  {
    forall i | 0 <= i < |rows|
      ensures Sourced(t, task, rows, first, i)
    {
      var c := first[rows[i].id];
      assert CandidateOf(t, c);
      assert OutputSound(t, c.output) && JobSound(t, t.outputs[c.output].job);
      assert SelectionKeyed(t.selections[rows[i].id], t.reviews, t.assets, t.versions);
      assert RecipeKeyed(t.recipes[c.recipe], t.assets);
    }
  }

  /** A member of the new revision satisfies the guard created after the backfill. */
  lemma MemberForIsSound(n: Names, t: Tables, now: Tables, task: Id, rows: seq<Picked>, first: map<Id, Candidate>, i: nat)
    requires AllSourced(t, task, rows, first) && i < |rows|
    requires now == t.(revisions := now.revisions, members := now.members, heads := now.heads)
    requires n.revision(task) in now.revisions && now.revisions[n.revision(task)] == RevisionFor(rows, first)
    ensures MemberGuard(now, MemberFor(n, rows, first, i))
  {
    assert Sourced(t, task, rows, first, i) && Sourced(t, task, rows, first, 0);
  }

  /** The inserted members of the task are those of its first i rows. */
  ghost predicate MembersSoFar(n: Names, now: Tables, task: Id, rows: seq<Picked>, first: map<Id, Candidate>, i: nat)
    requires Convertible(rows, first) && i <= |rows|
  {
    && (forall m :: m in now.members && now.members[m].task == task ==>
          exists k :: 0 <= k < i && now.members[m] == MemberFor(n, rows, first, k))
    && (forall k :: 0 <= k < i ==>
          && n.member(n.revision(task), rows[k].id) in now.members
          && now.members[n.member(n.revision(task), rows[k].id)] == MemberFor(n, rows, first, k))
  }

  lemma MemberChecksPass(n: Names, t: Tables, now: Tables, tasks: set<Id>, task: Id, rows: seq<Picked>,
                         first: map<Id, Candidate>, i: nat)
    requires Injective(n) && AllSourced(t, task, rows, first) && i < |rows|
    requires Named(n, t, now, tasks + {task}) && MembersSoFar(n, now, task, rows, first, i)
    ensures MemberChecks(now, MemberFor(n, rows, first, i))
    ensures n.member(n.revision(task), rows[i].id) !in now.members
  {
    var m := MemberFor(n, rows, first, i);
    assert Sourced(t, task, rows, first, i) && Sourced(t, task, rows, first, 0);
    forall o | o in now.members && now.members[o].revision == m.revision
      ensures now.members[o].selection != m.selection && now.members[o].displayOrder != m.displayOrder
    {
      assert now.members[o].task == task;
      var k :| 0 <= k < i && now.members[o] == MemberFor(n, rows, first, k);
      assert rows[k].id != rows[i].id;
    }
  }

  /** Row i is inserted under a fresh id and passes the guard and the keys. */
  lemma NextMember(n: Names, t: Tables, now: Tables, tasks: set<Id>, task: Id, rows: seq<Picked>,
                   first: map<Id, Candidate>, i: nat)
    requires Injective(n) && AllSourced(t, task, rows, first) && i < |rows|
    requires Named(n, t, now, tasks + {task}) && MembersSoFar(n, now, task, rows, first, i)
    requires n.revision(task) in now.revisions && now.revisions[n.revision(task)] == RevisionFor(rows, first)
    ensures var m, id := MemberFor(n, rows, first, i), n.member(n.revision(task), rows[i].id);
            && id !in now.members
            && Execute(now, InsertMember(id, m)) == Some(now.(members := now.members[id := m]))
  {
    MemberForIsSound(n, t, now, task, rows, first, i);
    MemberChecksPass(n, t, now, tasks, task, rows, first, i);
  }

  lemma NameAdded(n: Names, t: Tables, now: Tables, tasks: set<Id>, task: Id, rows: seq<Picked>,
                  first: map<Id, Candidate>, i: nat)
    requires Named(n, t, now, tasks + {task}) && Convertible(rows, first) && i < |rows| && rows[0].row.task == task
    ensures var m, id := MemberFor(n, rows, first, i), n.member(n.revision(task), rows[i].id);
            Named(n, t, now.(members := now.members[id := m]), tasks + {task})
  {
  }

  lemma MemberAdded(n: Names, now: Tables, task: Id, rows: seq<Picked>, first: map<Id, Candidate>, i: nat)
    requires Convertible(rows, first) && i < |rows| && MembersSoFar(n, now, task, rows, first, i)
    requires n.member(n.revision(task), rows[i].id) !in now.members
    ensures var m, id := MemberFor(n, rows, first, i), n.member(n.revision(task), rows[i].id);
            MembersSoFar(n, now.(members := now.members[id := m]), task, rows, first, i + 1)
  {
    var m, id := MemberFor(n, rows, first, i), n.member(n.revision(task), rows[i].id);
    var next := now.(members := now.members[id := m]);
    forall o | o in next.members && next.members[o].task == task
      ensures exists k :: 0 <= k < i + 1 && next.members[o] == MemberFor(n, rows, first, k)
    {
      if o == id {
        assert next.members[o] == MemberFor(n, rows, first, i);
      } else {
        var k :| 0 <= k < i && now.members[o] == MemberFor(n, rows, first, k);
      }
    }
  }

  // -------------------------------------------------------------------- inserts as statements

  /** Every statement of the sequence takes effect. */
  ghost predicate AllTake(t: Tables, statements: seq<Statement>) {
    forall k :: 0 <= k < |statements| ==> Execute(Run(t, statements[..k]), statements[k]).Some?
  }

  /** The tables are reached from the first ones by inserts that the guards admit. */
  ghost predicate Reached(t: Tables, now: Tables, inserts: seq<Statement>) {
    Valid(now) && AllTake(t, inserts) && now == Run(t, inserts)
  }

  lemma ReachNext(t: Tables, now: Tables, inserts: seq<Statement>, s: Statement)
    requires Reached(t, now, inserts) && Execute(now, s).Some?
    ensures Reached(t, Execute(now, s).value, inserts + [s])
  {
    StepKeepsValid(now, s);
    assert (inserts + [s])[..|inserts|] == inserts;
    forall k | 0 <= k < |inserts + [s]|
      ensures Execute(Run(t, (inserts + [s])[..k]), (inserts + [s])[k]).Some?
    {
      assert k < |inserts| ==> (inserts + [s])[..k] == inserts[..k];
    }
  }

  lemma RevisionFresh(n: Names, t: Tables, now: Tables, tasks: set<Id>, task: Id, r: Revision)
    requires Injective(n) && Named(n, t, now, tasks) && task !in tasks && r.task == task && r.no == 1
    requires task in t.reviews && r.version in t.versions && r.watermark in t.assets
    ensures var next := now.(revisions := now.revisions[n.revision(task) := r]);
            Execute(now, InsertRevision(n.revision(task), r)) == Some(next) && Named(n, t, next, tasks + {task})
  {
  }

  lemma HeadFresh(n: Names, t: Tables, now: Tables, tasks: set<Id>, task: Id, rows: seq<Picked>, r: Revision)
    requires Injective(n) && Named(n, t, now, tasks + {task}) && rows != [] && rows[0].row.task == task
    requires forall h :: h in now.heads ==> now.heads[h].task != task
    requires n.revision(task) in now.revisions && now.revisions[n.revision(task)] == r
    requires r.task == task && r.version == rows[0].row.version && task in t.reviews && r.version in t.versions
    ensures var next := now.(heads := now.heads[n.head(task) := HeadFor(n, rows)]);
            && n.head(task) !in now.heads
            && Execute(now, InsertHead(n.head(task), HeadFor(n, rows))) == Some(next) && Named(n, t, next, tasks + {task})
  {
  }

  /** Members are added, all of the task. */
  ghost predicate Grows(members: map<Id, Member>, grown: map<Id, Member>, task: Id) {
    && (forall m :: m in members ==> m in grown && grown[m] == members[m])
    && (forall m :: m in grown && m !in members ==> grown[m].task == task)
  }

  /** The state in which the members of a task are inserted, i of them done. */
  ghost predicate Inserting(n: Names, t: Tables, now: Tables, tasks: set<Id>, task: Id, rows: seq<Picked>,
                            first: map<Id, Candidate>, i: nat)
    requires Convertible(rows, first) && i <= |rows|
  {
    && Named(n, t, now, tasks + {task}) && MembersSoFar(n, now, task, rows, first, i)
    && n.revision(task) in now.revisions && now.revisions[n.revision(task)] == RevisionFor(rows, first)
  }

  lemma InsertingNext(n: Names, t: Tables, now: Tables, tasks: set<Id>, task: Id, rows: seq<Picked>,
                      first: map<Id, Candidate>, i: nat)
    requires Injective(n) && AllSourced(t, task, rows, first) && i < |rows|
    requires Inserting(n, t, now, tasks, task, rows, first, i)
    ensures var m, id := MemberFor(n, rows, first, i), n.member(n.revision(task), rows[i].id);
            var next := now.(members := now.members[id := m]);
            && Execute(now, InsertMember(id, m)) == Some(next) && Inserting(n, t, next, tasks, task, rows, first, i + 1)
            && id !in now.members && m.task == task
  {
    assert Sourced(t, task, rows, first, 0);
    NextMember(n, t, now, tasks, task, rows, first, i);
    MemberAdded(n, now, task, rows, first, i);
    NameAdded(n, t, now, tasks, task, rows, first, i);
  }

  /** i members of the task are inserted, after the tables `now`, which were reached from `begin`. */
  ghost predicate Progress(n: Names, t: Tables, begin: Tables, now: Tables, next: Tables, inserts: seq<Statement>,
                           tasks: set<Id>, task: Id, rows: seq<Picked>, first: map<Id, Candidate>, i: nat)
    requires Convertible(rows, first) && i <= |rows|
  {
    && Inserting(n, t, next, tasks, task, rows, first, i) && Reached(begin, next, inserts)
    && next == now.(members := next.members) && Grows(now.members, next.members, task)
  }

  lemma GrowsNext(members: map<Id, Member>, grown: map<Id, Member>, task: Id, id: Id, m: Member)
    requires Grows(members, grown, task) && id !in grown && m.task == task
    ensures Grows(members, grown[id := m], task)
  {
  }

  lemma ProgressNext(n: Names, t: Tables, begin: Tables, now: Tables, next: Tables, inserts: seq<Statement>,
                     tasks: set<Id>, task: Id, rows: seq<Picked>, first: map<Id, Candidate>, i: nat)
    requires Injective(n) && AllSourced(t, task, rows, first) && i < |rows|
    requires Progress(n, t, begin, now, next, inserts, tasks, task, rows, first, i)
    ensures var m, id := MemberFor(n, rows, first, i), n.member(n.revision(task), rows[i].id);
            Progress(n, t, begin, now, next.(members := next.members[id := m]), inserts + [InsertMember(id, m)],
                     tasks, task, rows, first, i + 1)
  {
    var m, id := MemberFor(n, rows, first, i), n.member(n.revision(task), rows[i].id);
    InsertingNext(n, t, next, tasks, task, rows, first, i);
    ReachNext(begin, next, inserts, InsertMember(id, m));
    GrowsNext(now.members, next.members, task, id, m);
    var after := next.(members := next.members[id := m]);
    assert Inserting(n, t, after, tasks, task, rows, first, i + 1);
    assert Reached(begin, after, inserts + [InsertMember(id, m)]);
    assert after == now.(members := after.members);
  }

  /** The members of one task, in display order. */
  method InsertMembers(n: Names, ghost t: Tables, now: Tables, ghost tasks: set<Id>, ghost task: Id, rows: seq<Picked>,
                       first: map<Id, Candidate>, ghost begin: Tables, ghost before: seq<Statement>)
    returns (next: Tables, ghost inserts: seq<Statement>)
    requires Injective(n) && AllSourced(t, task, rows, first) && rows[0].row.task == task
    requires Inserting(n, t, now, tasks, task, rows, first, 0) && Reached(begin, now, before)
    ensures Progress(n, t, begin, now, next, inserts, tasks, task, rows, first, |rows|)
  {
    next, inserts := now, before;
    for i := 0 to |rows|
      invariant Progress(n, t, begin, now, next, inserts, tasks, task, rows, first, i)
    {
      var member, id := MemberFor(n, rows, first, i), n.member(n.revision(rows[0].row.task), rows[i].id);
      ProgressNext(n, t, begin, now, next, inserts, tasks, task, rows, first, i);
      inserts := inserts + [InsertMember(id, member)];
      next := next.(members := next.members[id := member]);
    }
  }

  /** Inserting the revision opens the state in which the members follow. */
  lemma RevisionInserted(n: Names, t: Tables, begin: Tables, now: Tables, before: seq<Statement>, tasks: set<Id>, task: Id,
                         rows: seq<Picked>, first: map<Id, Candidate>)
    requires Injective(n) && AllSourced(t, task, rows, first) && rows[0].row.task == task
    requires Named(n, t, now, tasks) && task !in tasks && Reached(begin, now, before)
    ensures var r, id := RevisionFor(rows, first), n.revision(task);
            var next := now.(revisions := now.revisions[id := r]);
            && Inserting(n, t, next, tasks, task, rows, first, 0)
            && Reached(begin, next, before + [InsertRevision(id, r)])
  {
    var r, id := RevisionFor(rows, first), n.revision(task);
    assert Sourced(t, task, rows, first, 0);
    RevisionFresh(n, t, now, tasks, task, r);
    ReachNext(begin, now, before, InsertRevision(id, r));
  }

  /** Inserting the head closes the task. */
  lemma HeadInserted(n: Names, t: Tables, begin: Tables, now: Tables, inserts: seq<Statement>, tasks: set<Id>, task: Id,
                     rows: seq<Picked>, first: map<Id, Candidate>)
    requires Injective(n) && AllSourced(t, task, rows, first) && rows[0].row.task == task
    requires Inserting(n, t, now, tasks, task, rows, first, |rows|) && Reached(begin, now, inserts)
    requires forall h :: h in now.heads ==> now.heads[h].task != task
    ensures var next := now.(heads := now.heads[n.head(task) := HeadFor(n, rows)]);
            && Named(n, t, next, tasks + {task}) && MembersSoFar(n, next, task, rows, first, |rows|)
            && Reached(begin, next, inserts + [InsertHead(n.head(task), HeadFor(n, rows))])
  {
    assert Sourced(t, task, rows, first, 0);
    HeadFresh(n, t, now, tasks, task, rows, RevisionFor(rows, first));
    ReachNext(begin, now, inserts, InsertHead(n.head(task), HeadFor(n, rows)));
  }

  /** Revision, members and head of one task. */
  method InsertTask(n: Names, ghost t: Tables, now: Tables, ghost tasks: set<Id>, ghost task: Id, rows: seq<Picked>,
                    first: map<Id, Candidate>, ghost begin: Tables, ghost before: seq<Statement>)
    returns (next: Tables, ghost inserts: seq<Statement>)
    requires Injective(n) && AllSourced(t, task, rows, first) && rows[0].row.task == task
    requires Named(n, t, now, tasks) && task !in tasks && Reached(begin, now, before)
    ensures Named(n, t, next, tasks + {task}) && Reached(begin, next, inserts)
    ensures next.revisions == now.revisions[n.revision(task) := RevisionFor(rows, first)]
    ensures next.heads == now.heads[n.head(task) := HeadFor(n, rows)] && Grows(now.members, next.members, task)
    ensures MembersSoFar(n, next, task, rows, first, |rows|)
  {
    var id := rows[0].row.task;
    var revision, head := RevisionFor(rows, first), HeadFor(n, rows);
    RevisionInserted(n, t, begin, now, before, tasks, task, rows, first);
    var started := now.(revisions := now.revisions[n.revision(id) := revision]);
    next, inserts := InsertMembers(n, t, started, tasks, task, rows, first, begin,
                                   before + [InsertRevision(n.revision(id), revision)]);
    assert next.heads == now.heads;
    HeadInserted(n, t, begin, next, inserts, tasks, task, rows, first);
    inserts := inserts + [InsertHead(n.head(id), head)];
    next := next.(heads := next.heads[n.head(id) := head]);
  }

  // -------------------------------------------------------------------- all tasks

  lemma {:induction false} OfTaskRows(picked: seq<Picked>, task: Id)
    requires forall i, j :: 0 <= i < j < |picked| ==> picked[i] != picked[j]
    ensures forall p :: p in OfTask(picked, task) <==> p in picked && p.row.task == task
    ensures forall i, j :: 0 <= i < j < |OfTask(picked, task)| ==> OfTask(picked, task)[i] != OfTask(picked, task)[j]
  {
    if picked != [] {
      var before, last := picked[..|picked| - 1], picked[|picked| - 1];
      OfTaskRows(before, task);
      assert picked == before + [last];
      assert last !in before;
    }
  }

  lemma PickedTaskRows(t: Tables, xSelections: set<(Id, Id)>, picked: seq<Picked>, task: Id)
    requires PickedQuery(t, xSelections, picked) && SelectionKeys(t) && OfTask(picked, task) != []
    ensures TaskRows(t, task, OfTask(picked, task))
  {
    OfTaskRows(picked, task);
    var rows := OfTask(picked, task);
    forall i | 0 <= i < |rows|
      ensures rows[i].id in t.selections && rows[i].row == t.selections[rows[i].id] && rows[i].row.task == task
    {
      assert rows[i] in rows;
    }
  }

  /** A convertible task has its revision, its head and exactly the members of its rows. */
  ghost predicate Converted(n: Names, now: Tables, task: Id, rows: seq<Picked>, first: map<Id, Candidate>)
    requires Convertible(rows, first)
  {
    && n.revision(task) in now.revisions && now.revisions[n.revision(task)] == RevisionFor(rows, first)
    && n.head(task) in now.heads && now.heads[n.head(task)] == HeadFor(n, rows)
    && MembersSoFar(n, now, task, rows, first, |rows|)
  }

  /** Only rows of convertible tasks were inserted. */
  ghost predicate OnlyConvertible(now: Tables, tasks: set<Id>, picked: seq<Picked>, first: map<Id, Candidate>) {
    && (forall h :: h in now.heads ==> now.heads[h].task in tasks && Convertible(OfTask(picked, now.heads[h].task), first))
    && (forall m :: m in now.members ==> now.members[m].task in tasks && Convertible(OfTask(picked, now.members[m].task), first))
  }

  /** Of the tasks done so far the convertible ones are converted, and nothing else was inserted. */
  ghost predicate ConvertedSoFar(n: Names, now: Tables, tasks: set<Id>, picked: seq<Picked>, first: map<Id, Candidate>) {
    && OnlyConvertible(now, tasks, picked, first)
    && forall task :: task in tasks && Convertible(OfTask(picked, task), first) ==>
         Converted(n, now, task, OfTask(picked, task), first)
  }

  lemma ConvertedStays(n: Names, now: Tables, next: Tables, added: Id, revision: Revision, head: Heads.Head, task: Id,
                       rows: seq<Picked>, first: map<Id, Candidate>)
    requires Injective(n) && Convertible(rows, first) && Converted(n, now, task, rows, first) && task != added
    requires next.revisions == now.revisions[n.revision(added) := revision]
    requires next.heads == now.heads[n.head(added) := head] && Grows(now.members, next.members, added)
    ensures Converted(n, next, task, rows, first)
  {
    assert n.revision(added) != n.revision(task) && n.head(added) != n.head(task);
  }

  lemma OnlyOneMore(n: Names, now: Tables, next: Tables, tasks: set<Id>, task: Id, picked: seq<Picked>, first: map<Id, Candidate>)
    requires OnlyConvertible(now, tasks, picked, first) && Convertible(OfTask(picked, task), first)
    requires OfTask(picked, task)[0].row.task == task
    requires next.heads == now.heads[n.head(task) := HeadFor(n, OfTask(picked, task))] && Grows(now.members, next.members, task)
    ensures OnlyConvertible(next, tasks + {task}, picked, first)
  {
  }

  lemma EarlierStay(n: Names, now: Tables, next: Tables, tasks: set<Id>, task: Id, picked: seq<Picked>,
                    first: map<Id, Candidate>)
    requires Injective(n) && ConvertedSoFar(n, now, tasks, picked, first) && task !in tasks
    requires Convertible(OfTask(picked, task), first)
    requires next.revisions == now.revisions[n.revision(task) := RevisionFor(OfTask(picked, task), first)]
    requires next.heads == now.heads[n.head(task) := HeadFor(n, OfTask(picked, task))] && Grows(now.members, next.members, task)
    ensures forall other :: other in tasks && Convertible(OfTask(picked, other), first) ==>
              Converted(n, next, other, OfTask(picked, other), first)
  {
    forall other | other in tasks && Convertible(OfTask(picked, other), first)
      ensures Converted(n, next, other, OfTask(picked, other), first)
    {
      ConvertedStays(n, now, next, task, RevisionFor(OfTask(picked, task), first), HeadFor(n, OfTask(picked, task)), other,
                     OfTask(picked, other), first);
    }
  }

  lemma OneMoreConverted(n: Names, now: Tables, next: Tables, tasks: set<Id>, task: Id, picked: seq<Picked>,
                         first: map<Id, Candidate>)
    requires Injective(n) && ConvertedSoFar(n, now, tasks, picked, first) && task !in tasks
    requires Convertible(OfTask(picked, task), first) && OfTask(picked, task)[0].row.task == task
    requires next.revisions == now.revisions[n.revision(task) := RevisionFor(OfTask(picked, task), first)]
    requires next.heads == now.heads[n.head(task) := HeadFor(n, OfTask(picked, task))] && Grows(now.members, next.members, task)
    requires MembersSoFar(n, next, task, OfTask(picked, task), first, |OfTask(picked, task)|)
    ensures ConvertedSoFar(n, next, tasks + {task}, picked, first)
  {
    OnlyOneMore(n, now, next, tasks, task, picked, first);
    EarlierStay(n, now, next, tasks, task, picked, first);
    assert Converted(n, next, task, OfTask(picked, task), first);
  }

  /** The state after the tasks done so far. */
  ghost predicate Backfilled(n: Names, t: Tables, next: Tables, inserts: seq<Statement>, tasks: set<Id>, picked: seq<Picked>,
                             first: map<Id, Candidate>)
  {
    Named(n, t, next, tasks) && Reached(t, next, inserts) && ConvertedSoFar(n, next, tasks, picked, first)
  }

  lemma NothingBackfilled(n: Names, t: Tables, picked: seq<Picked>, first: map<Id, Candidate>)
    requires Valid(t) && t.revisions == map[] && t.heads == map[] && t.members == map[]
    ensures Backfilled(n, t, t, [], {}, picked, first)
  {
    assert Named(n, t, t, {}) && Reached(t, t, []);
  }

  /** Tasks without rows are not convertible, so all are done when the grouped ones are. */
  lemma AllBackfilled(n: Names, t: Tables, next: Tables, inserts: seq<Statement>, tasks: set<Id>, picked: seq<Picked>,
                      first: map<Id, Candidate>)
    requires Backfilled(n, t, next, inserts, tasks, picked, first)
    requires forall task :: task in tasks <==> OfTask(picked, task) != []
    ensures Reached(t, next, inserts)
    ensures forall task :: Convertible(OfTask(picked, task), first) ==> Converted(n, next, task, OfTask(picked, task), first)
    ensures forall h :: h in next.heads ==> Convertible(OfTask(picked, next.heads[h].task), first)
    ensures forall m :: m in next.members ==> Convertible(OfTask(picked, next.members[m].task), first)
    ensures next == t.(revisions := next.revisions, members := next.members, heads := next.heads)
  {
  }

  /** A task that is not convertible is passed over. */
  lemma PassedOver(n: Names, t: Tables, next: Tables, inserts: seq<Statement>, tasks: set<Id>, task: Id, picked: seq<Picked>,
                   first: map<Id, Candidate>)
    requires Backfilled(n, t, next, inserts, tasks, picked, first) && !Convertible(OfTask(picked, task), first)
    ensures Backfilled(n, t, next, inserts, tasks + {task}, picked, first)
  {
    assert Named(n, t, next, tasks + {task}) && Reached(t, next, inserts);
    assert OnlyConvertible(next, tasks + {task}, picked, first);
  }

  /** The body of the loop over tasks. */
  method BackfillTask(n: Names, ghost t: Tables, now: Tables, ghost before: seq<Statement>, ghost tasks: set<Id>, ghost task: Id,
                      rows: seq<Picked>, ghost picked: seq<Picked>, first: map<Id, Candidate>)
    returns (next: Tables, ghost inserts: seq<Statement>)
    requires Injective(n) && Valid(t) && SelectionKeys(t) && TaskRows(t, task, rows) && rows == OfTask(picked, task)
    requires forall s :: s in first ==> CandidateOf(t, first[s]) && first[s].selection == s
    requires Backfilled(n, t, now, before, tasks, picked, first) && task !in tasks
    ensures Backfilled(n, t, next, inserts, tasks + {task}, picked, first)
  {
    var valid := CheckTask(rows, first);
    if !valid {
      PassedOver(n, t, now, before, tasks, task, picked, first);
      return now, before;
    }
    RowsAreSourced(t, task, rows, first);
    next, inserts := InsertTask(n, t, now, tasks, task, rows, first, t, before);
    OneMoreConverted(n, now, next, tasks, task, picked, first);
  }

  // -------------------------------------------------------------------- the result, column by column

  /** The X selections of the review. */
  function XOf(t: Tables, xSelections: set<(Id, Id)>, task: Id): set<Id> {
    set s | s in t.selections && t.selections[s].task == task && (task, t.selections[s].asset) in xSelections
  }

  /** The output is an X teaser that a succeeded job rendered from the selection with a watermark. */
  predicate Teaser(t: Tables, s: Id, o: Id) {
    && o in t.outputs && t.outputs[o].target == "x_teaser"
    && exists j, r :: j in t.jobs && r in t.recipes
         && t.outputs[o].job == j && t.jobs[j].state == Jobs.Succeeded
         && t.jobs[j].identity.selection == s && t.jobs[j].identity.recipe == r && t.recipes[r].watermark.Some?
  }

  /** The candidate is the latest teaser of the selection; among those of one time, the one of the greatest id. */
  predicate LatestTeaser(t: Tables, s: Id, c: Candidate) {
    && Teaser(t, s, c.output) && c.selection == s
    && (forall o :: o in t.outputs && Teaser(t, s, o) && o != c.output ==>
          || t.outputs[o].recordedAt < t.outputs[c.output].recordedAt
          || (t.outputs[o].recordedAt == t.outputs[c.output].recordedAt && o < c.output))
    && c.recordedAt == t.outputs[c.output].recordedAt
    && c.recipe == t.jobs[t.outputs[c.output].job].identity.recipe
    && c.recipe in t.recipes && t.recipes[c.recipe].watermark == Some(c.watermark)
    && (c.position.Some? ==> c.position == t.recipes[c.recipe].position)
    && (c.position.Some? <==> t.recipes[c.recipe].position in {Some(TopLeft), Some(TopRight), Some(BottomLeft), Some(BottomRight)})
  }

  /** Every X selection has a latest teaser, all with one watermark and with a known position. */
  predicate Converts(t: Tables, xSelections: set<(Id, Id)>, latest: map<Id, Candidate>, task: Id) {
    var xs := XOf(t, xSelections, task);
    && xs != {} && (forall s :: s in xs ==> s in latest && latest[s].position.Some?)
    && forall s, o :: s in xs && o in xs ==> latest[s].watermark == latest[o].watermark
  }

  predicate MemberColumns(n: Names, t: Tables, latest: map<Id, Candidate>, task: Id, m: Member) {
    && m.selection in t.selections && m.selection in latest
    && m.revision == n.revision(task) && m.task == task && m.version == t.selections[m.selection].version
    && m.sourceAsset == t.selections[m.selection].asset && m.displayOrder == t.selections[m.selection].displayOrder
    && Some(m.position) == latest[m.selection].position && m.recipe == latest[m.selection].recipe
    && m.job == None && m.output == Some(latest[m.selection].output)
  }

  /** The revision is number 1 and active, and its members are the X selections with their latest teasers. */
  ghost predicate FirstRevision(n: Names, t: Tables, xSelections: set<(Id, Id)>, latest: map<Id, Candidate>, next: Tables, task: Id) {
    && n.revision(task) in next.revisions && n.head(task) in next.heads
    && var r, h, xs := next.revisions[n.revision(task)], next.heads[n.head(task)], XOf(t, xSelections, task);
    && r.task == task && r.no == 1
    && (forall s :: s in xs ==> r.version == t.selections[s].version && s in latest && r.watermark == latest[s].watermark)
    && h.task == task && h.version == r.version && h.active == Some(n.revision(task)) && h.pending == None && h.lockVersion == 1
    && (forall m :: m in next.members && next.members[m].task == task ==>
          next.members[m].selection in xs && MemberColumns(n, t, latest, task, next.members[m]))
    && forall s :: s in xs ==>
         var m := n.member(n.revision(task), s);
         m in next.members && next.members[m].selection == s && MemberColumns(n, t, latest, task, next.members[m])
  }

  lemma RowsAreXSelections(t: Tables, xSelections: set<(Id, Id)>, picked: seq<Picked>, task: Id)
    requires PickedQuery(t, xSelections, picked)
    ensures forall i :: 0 <= i < |OfTask(picked, task)| ==>
              var p := OfTask(picked, task)[i]; p.id in XOf(t, xSelections, task) && p.row == t.selections[p.id]
    ensures forall s :: s in XOf(t, xSelections, task) ==> Picked(s, t.selections[s]) in OfTask(picked, task)
  {
    OfTaskRows(picked, task);
    var rows := OfTask(picked, task);
    forall i | 0 <= i < |rows|
      ensures rows[i].id in XOf(t, xSelections, task) && rows[i].row == t.selections[rows[i].id]
    {
      assert rows[i] in rows;
    }
  }

  lemma ConvertibleIsConverts(t: Tables, xSelections: set<(Id, Id)>, picked: seq<Picked>, latest: map<Id, Candidate>, task: Id)
    requires PickedQuery(t, xSelections, picked)
    ensures Convertible(OfTask(picked, task), latest) <==> Converts(t, xSelections, latest, task)
  {
    RowsAreXSelections(t, xSelections, picked, task);
    var rows, xs := OfTask(picked, task), XOf(t, xSelections, task);
    if Convertible(rows, latest) {
      assert rows[0].id in xs;
      forall s | s in xs
        ensures s in latest && latest[s].position.Some? && latest[s].watermark == latest[rows[0].id].watermark
      {
        var i :| 0 <= i < |rows| && rows[i] == Picked(s, t.selections[s]);
        assert rows[i].id == s;
      }
    }
    if Converts(t, xSelections, latest, task) {
      var s :| s in xs;
      assert Picked(s, t.selections[s]) in rows;
    }
  }

  lemma ConvertedIsFirst(n: Names, t: Tables, xSelections: set<(Id, Id)>, picked: seq<Picked>, latest: map<Id, Candidate>,
                         next: Tables, task: Id)
    requires PickedQuery(t, xSelections, picked) && SelectionKeys(t)
    requires Convertible(OfTask(picked, task), latest) && Converted(n, next, task, OfTask(picked, task), latest)
    ensures FirstRevision(n, t, xSelections, latest, next, task)
  {
    RowsAreXSelections(t, xSelections, picked, task);
    var rows, xs := OfTask(picked, task), XOf(t, xSelections, task);
    assert rows[0].id in xs;
    forall k | 0 <= k < |rows|
      ensures MemberColumns(n, t, latest, task, MemberFor(n, rows, latest, k))
    {
      assert rows[k].id in xs;
    }
    forall s | s in xs
      ensures t.selections[s].version == rows[0].row.version && s in latest && latest[s].watermark == latest[rows[0].id].watermark
      ensures var m := n.member(n.revision(task), s);
              m in next.members && next.members[m].selection == s && MemberColumns(n, t, latest, task, next.members[m])
    {
      var i :| 0 <= i < |rows| && rows[i] == Picked(s, t.selections[s]);
      assert rows[i].id == s;
    }
  }

  lemma LatestIsTeaser(t: Tables, xSelections: set<(Id, Id)>, candidates: seq<Candidate>, latest: map<Id, Candidate>, s: Id)
    requires CandidateQuery(t, xSelections, candidates) && LatestCandidates(latest, candidates) && XSelected(t, xSelections, s)
    ensures s in latest <==> exists o :: Teaser(t, s, o)
    ensures s in latest ==> LatestTeaser(t, s, latest[s])
  {
    forall o | Teaser(t, s, o)
      ensures s in latest && NotAfter(CandidateFor(t, s, o), latest[s])
    {
      TeaserIsCandidate(t, s, o);
      assert CandidateFor(t, s, o) in candidates;
    }
    if s in latest {
      assert CandidateOf(t, latest[s]);
      assert Teaser(t, s, latest[s].output);
    }
  }

  function CandidateFor(t: Tables, s: Id, o: Id): Candidate
    requires Teaser(t, s, o)
  {
    var r := t.jobs[t.outputs[o].job].identity.recipe;
    var position := t.recipes[r].position;
    Candidate(s, o, t.outputs[o].recordedAt, r, t.recipes[r].watermark.value,
              if position.Some? && !position.value.OtherPosition? then position else None)
  }

  lemma TeaserIsCandidate(t: Tables, s: Id, o: Id)
    requires Teaser(t, s, o)
    ensures CandidateOf(t, CandidateFor(t, s, o))
  {
  }

  /** The result of the loop over the grouped rows, in these terms. */
  lemma BackfillResult(n: Names, t: Tables, xSelections: set<(Id, Id)>, picked: seq<Picked>, latest: map<Id, Candidate>, next: Tables)
    requires PickedQuery(t, xSelections, picked) && SelectionKeys(t)
    requires forall task :: Convertible(OfTask(picked, task), latest) ==> Converted(n, next, task, OfTask(picked, task), latest)
    ensures forall task :: Convertible(OfTask(picked, task), latest) <==> Converts(t, xSelections, latest, task)
    ensures forall task :: Converts(t, xSelections, latest, task) ==> FirstRevision(n, t, xSelections, latest, next, task)
  {
    forall task
      ensures Convertible(OfTask(picked, task), latest) <==> Converts(t, xSelections, latest, task)
      ensures Converts(t, xSelections, latest, task) ==> FirstRevision(n, t, xSelections, latest, next, task)
    {
      ConvertibleIsConverts(t, xSelections, picked, latest, task);
      if Convertible(OfTask(picked, task), latest) { ConvertedIsFirst(n, t, xSelections, picked, latest, next, task); }
    }
  }

  lemma LatestAreTeasers(t: Tables, xSelections: set<(Id, Id)>, candidates: seq<Candidate>, latest: map<Id, Candidate>)
    requires CandidateQuery(t, xSelections, candidates) && LatestCandidates(latest, candidates)
    ensures forall s :: XSelected(t, xSelections, s) ==>
              && (s in latest <==> exists o :: Teaser(t, s, o))
              && (s in latest ==> LatestTeaser(t, s, latest[s]))
  {
    forall s | XSelected(t, xSelections, s)
      ensures s in latest <==> exists o :: Teaser(t, s, o)
      ensures s in latest ==> LatestTeaser(t, s, latest[s])
    {
      LatestIsTeaser(t, xSelections, candidates, latest, s);
    }
  }

  /** The loop over the grouped rows, in any order. */
  method BackfillTasks(n: Names, t: Tables, byTask: map<Id, seq<Picked>>, latest: map<Id, Candidate>, ghost picked: seq<Picked>,
                       ghost xSelections: set<(Id, Id)>)
    returns (next: Tables, ghost inserts: seq<Statement>)
    requires Injective(n) && Valid(t) && SelectionKeys(t) && t.revisions == map[] && t.heads == map[] && t.members == map[]
    requires PickedQuery(t, xSelections, picked)
    requires forall task :: task in byTask ==> byTask[task] == OfTask(picked, task) != []
    requires forall s :: s in latest ==> CandidateOf(t, latest[s]) && latest[s].selection == s
    ensures Backfilled(n, t, next, inserts, byTask.Keys, picked, latest)
  {
    next, inserts := t, [];
    NothingBackfilled(n, t, picked, latest);
    var rest := byTask.Keys;
    ghost var done: set<Id> := {};
    while rest != {}
      invariant done + rest == byTask.Keys && done !! rest
      invariant Backfilled(n, t, next, inserts, done, picked, latest)
      decreases rest
    {
      var task :| task in rest;
      PickedTaskRows(t, xSelections, picked, task);
      next, inserts := BackfillTask(n, t, next, inserts, done, task, byTask[task], picked, latest);
      rest := rest - {task};
      done := done + {task};
    }
    assert done == byTask.Keys;
  }

  /**
    _backfill_completed_legacy_revisions: exactly the tasks whose X selections all have a latest
    output with one watermark and known positions get a revision, its members and an active
    head, and every insert passes the guards created afterwards.
  */
  method BackfillRevisions(n: Names, t: Tables, picked: seq<Picked>, candidates: seq<Candidate>, ghost xSelections: set<(Id, Id)>)
    returns (next: Tables, latest: map<Id, Candidate>, ghost inserts: seq<Statement>)
    requires Injective(n) && Valid(t) && SelectionKeys(t)
    requires t.revisions == map[] && t.heads == map[] && t.members == map[]
    requires PickedQuery(t, xSelections, picked) && CandidateQuery(t, xSelections, candidates)
    ensures Valid(next) && Reached(t, next, inserts)
    ensures forall s :: XSelected(t, xSelections, s) ==>
              && (s in latest <==> exists o :: Teaser(t, s, o))
              && (s in latest ==> LatestTeaser(t, s, latest[s]))
    ensures forall task :: Converts(t, xSelections, latest, task) ==> FirstRevision(n, t, xSelections, latest, next, task)
    ensures forall h :: h in next.heads ==> Converts(t, xSelections, latest, next.heads[h].task)
    ensures forall m :: m in next.members ==> Converts(t, xSelections, latest, next.members[m].task)
    ensures next == t.(revisions := next.revisions, members := next.members, heads := next.heads)
  {
    var byTask := GroupByTask(picked);
    latest := LatestBySetdefault(candidates);
    next, inserts := BackfillTasks(n, t, byTask, latest, picked, xSelections);
    AllBackfilled(n, t, next, inserts, byTask.Keys, picked, latest);
    BackfillResult(n, t, xSelections, picked, latest, next);
    LatestAreTeasers(t, xSelections, candidates, latest);
  }
}
