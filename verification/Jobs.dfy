/**
  One row of derivative_jobs under the update triggers of migrations 0009, 0026 and 0027.
  What a trigger looks up in other tables arrives as a `Surroundings` value.
*/
module Jobs {
  import opened Basics

  datatype State = Requested | Claimed | Processing | RetryWait | Succeeded | Failed | Cancelled

  /** The columns no update may change. */
  datatype Identity = Identity(
    selection: Id, recipe: Id, version: Id, revision: Option<Id>, gates: bool, logicalKey: string, payload: string,
    requestSha256: string, expectedOutputs: int, priority: int, availableAt: int, requestedAt: int)

  datatype Job = Job(
    identity: Identity, state: State, attempts: int, maxAttempts: int, lockVersion: int, retryAt: Option<int>,
    leaseOwner: Option<string>, leaseExpiresAt: Option<int>, claimedAt: Option<int>, processingStartedAt: Option<int>,
    completedAt: Option<int>, errorCode: Option<string>, errorDetail: Option<string>)

  /**
    outputs: the recorded outputs of the job; rearmable: its recipe renders exactly `full` and
    its release is current and rendering; finishable: the success trigger finds its release row.
  */
  datatype Surroundings = Surroundings(outputs: nat, rearmable: bool, finishable: bool)

  const ATTEMPT_LIMIT := 10
  const CONFLICT := "output_object_conflict"

  predicate Active(s: State) {
    s in {Claimed, Processing}
  }

  predicate Terminal(s: State) {
    s in {Succeeded, Failed, Cancelled}
  }

  predicate NotBefore(time: Option<int>, start: int) {
    time.Some? ==> time.value >= start
  }

  /** The CHECK constraints of derivative_jobs. */
  predicate Checks(j: Job) {
    && 0 <= j.attempts <= j.maxAttempts && j.maxAttempts > 0 && j.lockVersion > 0
    && j.identity.expectedOutputs > 0 && |j.identity.logicalKey| == 64 && |j.identity.requestSha256| == 64
    && (j.identity.gates || j.identity.revision.Some?)
    && (Active(j.state) <==> j.leaseOwner.Some?) && (Active(j.state) <==> j.leaseExpiresAt.Some?)
    && (j.state.RetryWait? <==> j.retryAt.Some?)
    && (Terminal(j.state) <==> j.completedAt.Some?)
    && (j.state.Requested? ==> j.attempts == 0)
    && (Active(j.state) ==> j.attempts > 0)
    && NotBefore(j.claimedAt, j.identity.requestedAt)
    && NotBefore(j.processingStartedAt, j.identity.requestedAt)
    && NotBefore(j.completedAt, j.identity.requestedAt)
  }

  predicate Transition(from: State, to: State) {
    match from
    case Requested => to in {Claimed, Cancelled}
    case RetryWait => to in {Claimed, Cancelled}
    case Claimed => to in {Claimed, Processing, RetryWait, Failed, Cancelled}
    case Processing => to in {Claimed, RetryWait, Succeeded, Failed, Cancelled}
    case Failed => to == RetryWait
    case _ => false
  }

  /** The owner's bounded rearm of a failed job. */
  predicate RearmBudget(was: Job, now: Job) {
    was.maxAttempts < now.maxAttempts <= ATTEMPT_LIMIT && now.maxAttempts >= was.attempts + 1
  }

  predicate Rearms(was: Job, now: Job, s: Surroundings) {
    && now.state.RetryWait?
    && was.errorCode != Some(CONFLICT)
    && now.completedAt.None? && now.errorCode.None? && now.errorDetail.None?
    && now.leaseOwner.None? && now.leaseExpiresAt.None? && now.retryAt.Some?
    && RearmBudget(was, now)
    && s.rearmable
  }

  /** `NEW.claimed_at < OLD.lease_expires_at` is not true when claimed_at is NULL. */
  predicate StealsLease(was: Job, now: Job) {
    && Active(was.state) && now.state.Claimed?
    && (was.leaseExpiresAt.None? || (now.claimedAt.Some? && now.claimedAt.value < was.leaseExpiresAt.value))
  }

  /** The clauses shared by all three guards. */
  predicate CommonGuard(was: Job, now: Job, s: Surroundings) {
    && now.lockVersion == was.lockVersion + 1
    && (now.state.Claimed? ==> now.attempts == was.attempts + 1)
    && (!now.state.Claimed? ==> now.attempts == was.attempts)
    && !StealsLease(was, now)
    && (now.state.Succeeded? ==> s.outputs == was.identity.expectedOutputs && s.finishable)
  }

  /** Migration 0009: a failed job is final and the attempt limit fixed. */
  predicate Guard0009(was: Job, now: Job, s: Surroundings) {
    && was.state !in {Succeeded, Failed, Cancelled}
    && now.identity == was.identity
    && now.maxAttempts == was.maxAttempts
    && Transition(was.state, now.state)
    && CommonGuard(was, now, s)
  }

  /** Migrations 0026 and 0027: a failed job may be rearmed with a larger limit. */
  predicate Guard0027(was: Job, now: Job, s: Surroundings) {
    && was.state !in {Succeeded, Cancelled}
    && now.identity == was.identity
    && (now.maxAttempts != was.maxAttempts ==> was.state.Failed? && now.state.RetryWait? && RearmBudget(was, now))
    && Transition(was.state, now.state)
    && (was.state.Failed? ==> Rearms(was, now, s))
    && CommonGuard(was, now, s)
  }

  /** The rearm is the only update that 0026 added: a failed job was final before. */
  lemma RearmIsTheOnlyAddition(was: Job, now: Job, s: Surroundings)
    ensures Guard0027(was, now, s) <==>
            Guard0009(was, now, s)
            || (&& was.state.Failed? && now.identity == was.identity && Rearms(was, now, s)
                && now.lockVersion == was.lockVersion + 1 && now.attempts == was.attempts)
  {
  }

  /** A row that passes the CHECKs and did not fail before its first attempt, as only an INSERT could write. */
  predicate Plausible(j: Job) {
    Checks(j) && (j.state.Failed? ==> j.attempts > 0)
  }

  predicate Accepted(was: Job, now: Job, s: Surroundings) {
    Guard0027(was, now, s) && Checks(now)
  }

  // -------------------------------------------------------------------- leases

  /** The new claim starts no earlier than the recorded expiry of the lease it replaces. */
  predicate AfterExpiry(was: Job, now: Job) {
    was.leaseExpiresAt.Some? && now.claimedAt.Some? && now.claimedAt.value >= was.leaseExpiresAt.value
  }

  /** A reclaim from an active state respects the old lease exactly when it records when it claims. */
  lemma ReclaimRespectsLease(was: Job, now: Job, s: Surroundings)
    requires Checks(was) && Accepted(was, now, s) && Active(was.state) && now.state.Claimed?
    ensures AfterExpiry(was, now) <==> now.claimedAt.Some?
  {
  }

  /** A claim with claimed_at NULL takes a lease that has not expired. */
  lemma UnrecordedClaimStealsLease(identity: Identity, owner: string, thief: string, expiry: int)
    requires identity.expectedOutputs > 0 && identity.gates && |identity.logicalKey| == |identity.requestSha256| == 64
    ensures var held := Job(identity, Claimed, 1, 2, 2, None, Some(owner), Some(expiry), None, None, None, None, None);
            var stolen := held.(attempts := 2, lockVersion := 3, leaseOwner := Some(thief));
            && Checks(held) && Accepted(held, stolen, Surroundings(0, false, false))
            && !AfterExpiry(held, stolen)
  {
  }

  // -------------------------------------------------------------------- every job stops

  /** No accepted update changes this budget, though the attempt limit may grow. */
  function Budget(j: Job): int {
    if j.maxAttempts > ATTEMPT_LIMIT then j.maxAttempts else ATTEMPT_LIMIT
  }

  function Stage(j: Job): nat {
    match j.state
    case Claimed => 3
    case Processing => 2
    case Failed => if j.attempts == Budget(j) then 0 else 1
    case RetryWait => if j.attempts == Budget(j) then 1 else 0
    case _ => 0
  }

  /** How many updates a job can still see: attempts left, then the stage of the current one. */
  function Measure(j: Job): (m: int)
    ensures Plausible(j) ==> 0 <= m <= 4 * Budget(j)
  {
    if j.state in {Succeeded, Cancelled} then 0
    else 4 * (Budget(j) - j.attempts) + Stage(j)
  }

  lemma UpdateDecreasesMeasure(was: Job, now: Job, s: Surroundings)
    requires Plausible(was) && Accepted(was, now, s)
    ensures Plausible(now)
    ensures Budget(now) == Budget(was)
    ensures Measure(now) < Measure(was)
  {
  }

  /** A history of one row: each element is an accepted update of the one before it. */
  ghost predicate History(rows: seq<Job>, around: seq<Surroundings>) {
    && |rows| == |around| + 1
    && Plausible(rows[0])
    && forall i :: 0 <= i < |around| ==> Accepted(rows[i], rows[i + 1], around[i])
  }

  function Claims(rows: seq<Job>): nat {
    if |rows| <= 1 then 0
    else Claims(rows[..|rows| - 1]) + if rows[|rows| - 1].state.Claimed? then 1 else 0
  }

  /**
    Every job stops: a row sees at most 4 * max(10, max_attempts) updates, lock_version counts
    them, attempt_count counts the claims, and the identity never changes.
  */
  lemma {:induction false} UpdatesAreFinite(rows: seq<Job>, around: seq<Surroundings>)
    requires History(rows, around)
    ensures |around| + Measure(rows[|around|]) <= Measure(rows[0]) <= 4 * Budget(rows[0])
    ensures |around| <= 4 * (if rows[0].maxAttempts > 10 then rows[0].maxAttempts else 10)
    ensures rows[|around|].lockVersion == rows[0].lockVersion + |around|
    ensures rows[|around|].attempts == rows[0].attempts + Claims(rows)
    ensures rows[|around|].identity == rows[0].identity && Plausible(rows[|around|])
  {
    if |around| > 0 {
      var k := |around| - 1;
      UpdatesAreFinite(rows[..k + 1], around[..k]);
      UpdateDecreasesMeasure(rows[k], rows[k + 1], around[k]);
    }
  }

  // -------------------------------------------------------------------- the bound is reached

  /** One attempt that fails and is rearmed, or waits and is cancelled after the last attempt. */
  function Attempt(j: Job): seq<Job> {
    var claimed := j.(state := Claimed, attempts := j.attempts + 1, lockVersion := j.lockVersion + 1, retryAt := None,
                      leaseOwner := Some(""), leaseExpiresAt := Some(0));
    var processing := claimed.(state := Processing, lockVersion := j.lockVersion + 2);
    var idle := processing.(leaseOwner := None, leaseExpiresAt := None, lockVersion := j.lockVersion + 3);
    var time := Some(j.identity.requestedAt);
    if claimed.attempts < ATTEMPT_LIMIT then
      var failed := idle.(state := Failed, completedAt := time);
      [claimed, processing, failed,
       failed.(state := RetryWait, completedAt := None, retryAt := time, maxAttempts := j.attempts + 2,
               lockVersion := j.lockVersion + 4)]
    else
      var waiting := idle.(state := RetryWait, retryAt := time);
      [claimed, processing, waiting,
       waiting.(state := Cancelled, retryAt := None, completedAt := time, lockVersion := j.lockVersion + 4)]
  }

  function Attempts(j: Job, n: nat): (rows: seq<Job>)
    ensures |rows| == 4 * n + 1
  {
    if n == 0 then [j]
    else
      var before := Attempts(j, n - 1);
      before + Attempt(before[|before| - 1])
  }

  /** The row before attempt n + 1 of the longest history. */
  predicate Ready(j: Job, n: nat) {
    && Checks(j) && n < ATTEMPT_LIMIT && j.attempts == n && j.maxAttempts == n + 1
    && j.state == (if n == 0 then Requested else RetryWait) && j.errorCode.None? && j.errorDetail.None?
    && j.claimedAt.None? && j.processingStartedAt.None?
  }

  lemma AttemptIsAccepted(j: Job, n: nat)
    requires Ready(j, n)
    ensures var rows := Attempt(j);
            && Accepted(j, rows[0], Surroundings(0, true, false))
            && (forall i :: 0 <= i < 3 ==> Accepted(rows[i], rows[i + 1], Surroundings(0, true, false)))
            && (n + 1 < ATTEMPT_LIMIT ==> Ready(rows[3], n + 1))
  {
  }

  /** From one allowed attempt the rearms reach the bound: 40 updates. */
  lemma {:induction false} BoundIsReached(j: Job, n: nat)
    requires Ready(j, 0) && n <= ATTEMPT_LIMIT
    ensures History(Attempts(j, n), seq(4 * n, _ => Surroundings(0, true, false)))
    ensures n < ATTEMPT_LIMIT ==> Ready(Attempts(j, n)[4 * n], n)
    ensures n == ATTEMPT_LIMIT ==> |Attempts(j, n)| - 1 == 40 == 4 * Budget(j)
  {
    if n > 0 {
      BoundIsReached(j, n - 1);
      var before := Attempts(j, n - 1);
      var last := before[4 * (n - 1)];
      AttemptIsAccepted(last, n - 1);
      var rows, s := Attempts(j, n), Surroundings(0, true, false);
      var around := seq(4 * n, _ => s);
      forall i | 0 <= i < 4 * n
        ensures Accepted(rows[i], rows[i + 1], around[i])
      {
        if i < 4 * (n - 1) {
          assert seq(4 * (n - 1), _ => s)[i] == s;
          assert rows[i] == before[i] && rows[i + 1] == before[i + 1];
        } else {
          assert rows[i + 1] == Attempt(last)[i - 4 * (n - 1)];
        }
      }
    }
  }
}
