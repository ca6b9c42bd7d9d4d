/** One row of x_teaser_revision_heads under the transition trigger of migration 0027. */
module Heads {
  import opened Basics

  datatype Head = Head(task: Id, version: Id, active: Option<Id>, pending: Option<Id>, lockVersion: int)

  /** The CHECK constraints. */
  predicate Checks(h: Head) {
    h.lockVersion > 0 && (h.active.Some? && h.pending.Some? ==> h.active != h.pending)
  }

  /** x_teaser_revision_heads_guard_update: propose a revision, or resolve the proposed one. */
  predicate Guard(was: Head, now: Head) {
    && now.task == was.task && now.version == was.version
    && now.lockVersion == was.lockVersion + 1
    && (|| (was.pending.None? && now.pending.Some? && now.active == was.active)
        || (was.pending.Some? && now.pending.None? && now.active in {was.pending, was.active}))
  }

  ghost predicate Follows(rows: seq<Head>, n: nat)
    requires 0 < n < |rows|
  {
    Guard(rows[n - 1], rows[n]) && Checks(rows[n])
  }

  /** A history of one head: each row is an accepted update of the one before it. */
  ghost predicate History(rows: seq<Head>) {
    && rows != [] && Checks(rows[0])
    && forall n {:trigger Follows(rows, n)} :: 0 < n < |rows| ==> Follows(rows, n)
  }

  lemma OneMore(rows: seq<Head>, h: Head)
    requires History(rows) && Guard(rows[|rows| - 1], h) && Checks(h)
    ensures History(rows + [h])
  {
    forall n | 0 < n < |rows + [h]|
      ensures Follows(rows + [h], n)
    {
      assert n < |rows| ==> Follows(rows, n);
    }
  }

  /** The revision was proposed in some row before n and activated by the next one. */
  ghost predicate ActivatedBefore(rows: seq<Head>, n: nat, revision: Option<Id>)
    requires n < |rows|
  {
    exists k :: 0 <= k < n && rows[k].pending == revision && revision.Some? && rows[k + 1].active == revision
  }

  /** Whether a revision is pending follows from the parity of lock_version. */
  predicate PendingByParity(first: Head, now: Head) {
    now.pending.Some? <==> (first.pending.Some? <==> (now.lockVersion - first.lockVersion) % 2 == 0)
  }

  /** The active revision is the first one, or was pending before it became active. */
  ghost predicate ActiveByProposal(rows: seq<Head>, n: nat)
    requires n < |rows|
  {
    rows[n].active == rows[0].active || ActivatedBefore(rows, n, rows[n].active)
  }

  /**
    Pending alternates, so the parity of lock_version determines it; the active revision is the
    initial one or was pending before it became active, and never becomes NULL again.
  */
  lemma {:induction false} PointersAlternate(rows: seq<Head>, n: nat)
    requires History(rows) && n < |rows|
    ensures rows[n].task == rows[0].task && rows[n].version == rows[0].version
    ensures rows[n].lockVersion == rows[0].lockVersion + n
    ensures PendingByParity(rows[0], rows[n]) && ActiveByProposal(rows, n)
    ensures rows[0].active.Some? ==> rows[n].active.Some?
  {
    if n > 0 {
      PointersAlternate(rows, n - 1);
      assert Follows(rows, n);
    }
  }

  lemma EndOfHistory(rows: seq<Head>, last: Head)
    requires History(rows) && last == rows[|rows| - 1]
    ensures last.lockVersion == rows[0].lockVersion + |rows| - 1
    ensures PendingByParity(rows[0], last) && ActiveByProposal(rows, |rows| - 1)
  {
    PointersAlternate(rows, |rows| - 1);
  }

  /** Between proposing and resolving, the active revision does not move; resolving moves it only to the proposed one. */
  lemma ActiveMovesOnlyToPending(rows: seq<Head>, n: nat)
    requires History(rows) && n + 1 < |rows| && rows[n + 1].active != rows[n].active
    ensures rows[n + 1].active == rows[n].pending && rows[n].pending.Some? && rows[n + 1].pending.None?
    ensures n > 0 ==> rows[n - 1].pending.None? && rows[n - 1].active == rows[n].active
  {
    assert Follows(rows, n + 1);
    if n > 0 { assert Follows(rows, n); }
  }
}
