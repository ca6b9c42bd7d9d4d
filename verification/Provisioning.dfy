/**
  The journaled RunPod provisioner of scripts/runpod_anatomy_endpoint.py: a write-ahead
  journal, a remote whose POST outcomes are ambiguous, reconciliation by listing, and
  ordered teardown.

  `mem` is the journal dictionary of the running command and `disk` the state file.  Every
  primitive (journal write, POST, list, read, DELETE) may end in `Crashed`; each method then
  returns at once, so an `ensures` that covers `Crashed` covers a crash at every point of its
  body.  A crash discards `mem`: the next command starts from `disk`.
*/
module Provisioning {
  import opened Basics

  datatype Kind = Template | Endpoint

  datatype Phase =
    | Planned | Reconciling | Creating | CreateOutcomeUnknown | CreateRejected
    | Created | Verified | DeletePending | Deleted

  datatype Status =
    | Applying | Ready | RecoveryRequired | Destroying | DestroyRecoveryRequired | Destroyed

  datatype Entry = Entry(id: Option<Id>, phase: Phase, createAttempted: bool, createAttempts: nat)

  datatype Journal = Journal(revision: nat, status: Status, template: Entry, endpoint: Entry) {
    function Of(kind: Kind): Entry {
      if kind.Template? then template else endpoint
    }

    function With(kind: Kind, entry: Entry): Journal {
      if kind.Template? then this.(template := entry) else this.(endpoint := entry)
    }

    /** The source tests `"destroy" in status`. */
    predicate DestroyBegun() {
      status.Destroying? || status.DestroyRecoveryRequired? || status.Destroyed?
    }
  }

  /** `planNamed`: the resource carries the name the plan gives to its kind. */
  datatype Resource = Resource(kind: Kind, planNamed: bool, boundTo: Option<Id>)

  datatype Reply<+T> = Ok(value: T) | Failed(rejected: bool) | Down

  /** Done: returned normally.  Raised: an exception reached the caller.  Crashed: process died. */
  datatype Exit = Done | Raised | Crashed

  /** What was sent to the provider; `leftEndpoints` are the endpoints of this journal live then. */
  datatype Request =
    | CreateRequest(kind: Kind)
    | DeleteRequest(kind: Kind, id: Id, leftEndpoints: set<Id>)

  datatype Command =
    | Apply(retryCreate: bool)
    | Recover
    | Destroy
    | Outsider(resource: Resource)

  const NEW_JOURNAL := Journal(0, Applying, Entry(None, Planned, false, 0), Entry(None, Planned, false, 0))

  predicate Matches(r: Resource, kind: Kind, templateId: Option<Id>) {
    r.kind == kind && r.planNamed && (kind.Endpoint? ==> r.boundTo == templateId)
  }

  /** How many POSTs of a kind were sent. */
  ghost function Posts(log: seq<Request>, kind: Kind): nat {
    if log == [] then 0
    else Posts(log[..|log| - 1], kind) + if log[|log| - 1] == CreateRequest(kind) then 1 else 0
  }

  lemma OneMoreRequest(log: seq<Request>, request: Request, kind: Kind)
    ensures Posts(log + [request], kind) == Posts(log, kind) + if request == CreateRequest(kind) then 1 else 0
  {
    assert (log + [request])[..|log|] == log;
  }

  ghost predicate OnlyDeletesFollow(before: seq<Request>, log: seq<Request>) {
    && |before| <= |log|
    && log[..|before|] == before
    && forall k :: |before| <= k < |log| ==> log[k].DeleteRequest?
  }

  ghost predicate AtMostOne(s: set<Id>) {
    forall i, j :: i in s && j in s ==> i == j
  }

  // ------------------------------------------------------------------ the provider's side as values

  function Listed(live: map<Id, Resource>, kind: Kind, templateId: Option<Id>): set<Id> {
    set i | i in live && Matches(live[i], kind, templateId)
  }

  /** The endpoints of the plan's name bound to one of these templates. */
  function BoundTo(live: map<Id, Resource>, templates: set<Id>): set<Id> {
    set i | i in live && live[i].kind.Endpoint? && live[i].planNamed
            && live[i].boundTo.Some? && live[i].boundTo.value in templates
  }

  ghost function Own(live: map<Id, Resource>, made: map<Id, Kind>, kind: Kind): set<Id> {
    set i | i in live && i in made && made[i] == kind
  }

  /** A resource can only refer to an id that was handed out. */
  predicate Binds(resource: Resource, issued: Id) {
    resource.boundTo.Some? ==> resource.boundTo.value < issued
  }

  /** What the provider's side keeps, whatever the state file says. */
  ghost predicate RemoteOk(live: map<Id, Resource>, issued: Id, made: map<Id, Kind>, retried: bool, templateId: Option<Id>) {
    && (forall i :: i in live || i in made ==> i < issued)
    && (forall i :: i in live && i !in made ==> Binds(live[i], issued))
    && (forall i :: i in live && i in made ==> Matches(live[i], made[i], templateId))
    && (!retried ==> forall i, j :: i in made && j in made && made[i] == made[j] ==> i == j)
  }

  /** What the journal entry of one kind promises about the remote. */
  ghost predicate EntryOk(e: Entry, kind: Kind, templateId: Option<Id>, live: map<Id, Resource>, made: map<Id, Kind>,
                          consistent: bool) {
    && (e.id.Some? ==> e.createAttempted)
    && (!e.createAttempted ==> forall i :: i in made ==> made[i] != kind)
    && (consistent ==>
          && (e.createAttempted ==> forall i :: i in Listed(live, kind, templateId) ==> i in made)
          && (e.id.Some? ==> e.id.value in made && made[e.id.value] == kind)
          && (e.id.Some? ==> forall i :: i in Own(live, made, kind) ==> i == e.id.value)
          && AtMostOne(Own(live, made, kind)))
  }

  ghost predicate LogOk(log: seq<Request>, made: map<Id, Kind>) {
    forall k :: 0 <= k < |log| && log[k].DeleteRequest? ==>
      && log[k].id in made
      && made[log[k].id] == log[k].kind
      && (log[k].kind.Template? ==> log[k].leftEndpoints == {})
  }

  /** Resources disappear, and those that appear have fresh ids and other names. */
  ghost predicate Drifts(was: map<Id, Resource>, now: map<Id, Resource>, issued: Id) {
    forall i :: i in now ==> if i in was then now[i] == was[i] else i >= issued && !now[i].planNamed
  }

  /** Nothing disappears, and what appears is of this kind under a fresh id. */
  ghost predicate Grows(was: map<Id, Resource>, now: map<Id, Resource>, kind: Kind, issued: Id) {
    && was.Keys <= now.Keys
    && forall i :: i in now ==> if i in was then now[i] == was[i] else i >= issued && now[i].kind == kind
  }

  /** The only match, or an id that was not handed out before. */
  predicate GotFrom(id: Id, matching: set<Id>, issued: Id) {
    matching == {id} || (matching == {} && id >= issued)
  }

  /** What a calm `_ensure` of a template leaves for its endpoint to find. */
  lemma BoundToGot(was: map<Id, Resource>, from: Id, made: map<Id, Kind>, retried: bool, now: map<Id, Resource>, id: Id)
    requires RemoteOk(was, from, made, retried, None)
    requires forall i :: i in made ==> made[i] != Endpoint
    requires Grows(was, now, Template, from)
    requires GotFrom(id, Listed(was, Template, None), from)
    ensures Listed(now, Endpoint, Some(id)) == BoundTo(was, Listed(was, Template, None))
  {
  }

  lemma DriftShrinks(was: map<Id, Resource>, now: map<Id, Resource>, issued: Id, made: map<Id, Kind>, kind: Kind,
                     templateId: Option<Id>)
    requires Drifts(was, now, issued)
    requires forall i :: i in made ==> i < issued
    ensures Listed(now, kind, templateId) <= Listed(was, kind, templateId)
    ensures Own(now, made, kind) <= Own(was, made, kind)
  {
  }

  lemma DriftKeepsEntry(e: Entry, was: map<Id, Resource>, now: map<Id, Resource>, issued: Id, made: map<Id, Kind>,
                        kind: Kind, templateId: Option<Id>, consistent: bool)
    requires EntryOk(e, kind, templateId, was, made, consistent)
    requires Drifts(was, now, issued)
    requires forall i :: i in made ==> i < issued
    ensures EntryOk(e, kind, templateId, now, made, consistent)
  {
    DriftShrinks(was, now, issued, made, kind, templateId);
  }

  lemma CreateKeepsRemote(live: map<Id, Resource>, id: Id, made: map<Id, Kind>, retried: bool, kind: Kind,
                          resource: Resource, templateId: Option<Id>)
    requires RemoteOk(live, id, made, retried, templateId)
    requires Matches(resource, kind, templateId)
    requires retried || forall i :: i in made ==> made[i] != kind
    ensures RemoteOk(live[id := resource], id + 1, made[id := kind], retried, templateId)
  {
  }

  lemma CreateKeepsEntry(e: Entry, other: Kind, live: map<Id, Resource>, id: Id, made: map<Id, Kind>, kind: Kind,
                         resource: Resource, templateId: Option<Id>, consistent: bool)
    requires EntryOk(e, other, templateId, live, made, consistent)
    requires forall i :: i in live || i in made ==> i < id
    requires resource.kind == kind
    requires other == kind ==> e.createAttempted && e.id.None? && (consistent ==> Own(live, made, kind) == {})
    ensures EntryOk(e, other, templateId, live[id := resource], made[id := kind], consistent)
  {
    assert Own(live[id := resource], made[id := kind], other) == Own(live, made, other) + (if other == kind then {id} else {});
    assert Listed(live[id := resource], other, templateId) <= Listed(live, other, templateId) + (if other == kind then {id} else {});
  }

  lemma DriftKeepsRemote(was: map<Id, Resource>, from: Id, now: map<Id, Resource>, issued: Id, made: map<Id, Kind>,
                         retried: bool, templateId: Option<Id>)
    requires RemoteOk(was, from, made, retried, templateId) && from <= issued
    requires Drifts(was, now, from)
    requires forall i :: i in now && i !in was ==> i < issued && Binds(now[i], issued)
    ensures RemoteOk(now, issued, made, retried, templateId)
  {
  }

  // ------------------------------------------------------------------ what a calm, consistent world allows

  /** `_ensure` gets the resource of an entry for which these matches are listed. */
  predicate CanHave(e: Entry, live: map<Id, Resource>, matching: set<Id>, retryCreate: bool) {
    if e.id.Some? then e.id.value in live
    else if e.createAttempted then matching != {} || retryCreate
    else matching == {} && (e.phase.CreateRejected? ==> retryCreate)
  }

  /**
    An apply becomes ready: the template can be had, and so can the endpoint.  The endpoints
    that count are those bound to the journaled template or, when the journal knows none, to
    one that the listing shows.
  */
  predicate CanApply(j: Journal, live: map<Id, Resource>, retryCreate: bool) {
    && CanHave(j.template, live, Listed(live, Template, None), retryCreate)
    && CanHave(j.endpoint, live,
               if j.template.id.Some? then Listed(live, Endpoint, j.template.id)
               else BoundTo(live, Listed(live, Template, None)),
               retryCreate)
  }

  /** A recovery finds the resource of the entry. */
  predicate Visible(j: Journal, live: map<Id, Resource>, kind: Kind) {
    if j.Of(kind).id.Some? then j.Of(kind).id.value in live
    else j.Of(kind).createAttempted && Listed(live, kind, j.template.id) != {}
  }

  /** A teardown can settle the entry: nothing was attempted, or the resource is known or visible. */
  predicate Resolvable(j: Journal, live: map<Id, Resource>, kind: Kind) {
    || !j.Of(kind).createAttempted
    || j.Of(kind).id.Some?
    || Listed(live, kind, j.template.id) != {}
  }

  /** `_ensure` creates a new resource for the entry. */
  predicate Creates(e: Entry, matching: set<Id>, retryCreate: bool) {
    e.id.None? && matching == {} && (if e.createAttempted || e.phase.CreateRejected? then retryCreate else true)
  }

  /** The entry when `_ensure` has looked for an id: found, refused for one of three reasons, or created under the next id. */
  predicate Acquired(e: Entry, now: Entry, matching: set<Id>, retryCreate: bool, next: Id) {
    if matching != {} then
      if !e.createAttempted then now == e.(phase := Reconciling)
      else now.id.Some? && matching == {now.id.value} && now == e.(id := now.id, phase := Created)
    else if Creates(e, matching, retryCreate) then now == Entry(Some(next), Created, true, e.createAttempts + 1)
    else now == e.(phase := if e.createAttempted then CreateOutcomeUnknown else CreateRejected)
  }

  /** ... and when `_ensure` has ended: an entry with a live id is verified. */
  predicate Ensured(e: Entry, now: Entry, live: map<Id, Resource>, matching: set<Id>, retryCreate: bool, next: Id) {
    if e.id.Some? then now == if e.id.value in live then e.(phase := Verified) else e
    else if CanHave(e, live, matching, retryCreate) then now.phase.Verified? && Acquired(e, now.(phase := Created), matching, retryCreate, next)
    else Acquired(e, now, matching, retryCreate, next)
  }

  /** The provider's side, and the requests it received. */
  datatype Side = Side(live: map<Id, Resource>, log: seq<Request>, issued: Id)

  /** ... after a POST that created the resource of the plan. */
  function WithNew(kind: Kind, templateId: Option<Id>, was: Side): Side {
    Side(was.live[was.issued := Resource(kind, true, if kind.Endpoint? then templateId else None)],
         was.log + [CreateRequest(kind)], was.issued + 1)
  }

  /** ... after `_ensure`. */
  function Advanced(e: Entry, matching: set<Id>, retryCreate: bool, kind: Kind, templateId: Option<Id>, was: Side): Side {
    if Creates(e, matching, retryCreate) then WithNew(kind, templateId, was) else was
  }

  /** The entries after an apply in a calm, consistent world, and the provider's side: first the template, then the endpoint. */
  predicate BothEnsured(j: Journal, now: Journal, retryCreate: bool, was: Side, after: Side) {
    var templates := Listed(was.live, Template, None);
    var between := Advanced(j.template, templates, retryCreate, Template, None, was);
    && Ensured(j.template, now.template, was.live, templates, retryCreate, was.issued)
    && if !CanHave(j.template, was.live, templates, retryCreate) then now.endpoint == j.endpoint && after == between
       else
         var endpoints := Listed(between.live, Endpoint, now.template.id);
         && Ensured(j.endpoint, now.endpoint, between.live, endpoints, retryCreate, between.issued)
         && after == Advanced(j.endpoint, endpoints, retryCreate, Endpoint, now.template.id, between)
  }

  /** The entry after `_discover`. */
  predicate Discovered(e: Entry, now: Entry, matching: set<Id>) {
    if e.id.Some? || !e.createAttempted || matching == {} then now == e
    else now.id.Some? && matching == {now.id.value} && now == e.(id := now.id, phase := Created)
  }

  /** The entry after a recovery: what is known or found is verified when it is live. */
  predicate Recovered(e: Entry, now: Entry, live: map<Id, Resource>, matching: set<Id>) {
    if e.id.Some? then now == if e.id.value in live then e.(phase := Verified) else e
    else if !e.createAttempted || matching == {} then now == e
    else now.id.Some? && matching == {now.id.value} && now == e.(id := now.id, phase := Verified)
  }

  /** A journaled resource is gone. */
  predicate Missing(e: Entry, live: map<Id, Resource>) {
    e.id.Some? && e.id.value !in live
  }

  /** The entries after a recovery in a calm, consistent world. */
  predicate BothRecovered(j: Journal, now: Journal, live: map<Id, Resource>) {
    && Recovered(j.template, now.template, live, Listed(live, Template, None))
    && if Missing(j.template, live) then now.endpoint == j.endpoint
       else Recovered(j.endpoint, now.endpoint, live, Listed(live, Endpoint, now.template.id))
  }

  /** The entry after `_destroy_one`: deleted, unless its create is unresolved. */
  predicate Removed(e: Entry, now: Entry, matching: set<Id>) {
    if e.id.Some? || !e.createAttempted then now == e.(phase := Deleted)
    else if matching == {} then now == e
    else now.id.Some? && matching == {now.id.value} && now == e.(id := now.id, phase := Deleted)
  }

  function IdOf(e: Entry): set<Id> {
    if e.id.Some? then {e.id.value} else {}
  }

  /** The entries after a teardown in a calm, consistent world, and what is left: an unresolved endpoint keeps the template. */
  predicate BothRemoved(j: Journal, now: Journal, was: map<Id, Resource>, live: map<Id, Resource>) {
    && Removed(j.endpoint, now.endpoint, Listed(was, Endpoint, now.template.id))
    && if Resolvable(j, was, Endpoint)
       then Removed(j.template, now.template, Listed(was, Template, None)) && live == was - IdOf(now.endpoint) - IdOf(now.template)
       else Discovered(j.template, now.template, Listed(was, Template, None)) && live == was
  }

  /** Both resources can be had, one after the other. */
  predicate BothCan(j: Journal, now: Journal, retryCreate: bool, was: Side) {
    var templates := Listed(was.live, Template, None);
    && CanHave(j.template, was.live, templates, retryCreate)
    && var between := Advanced(j.template, templates, retryCreate, Template, None, was);
       CanHave(j.endpoint, between.live, Listed(between.live, Endpoint, now.template.id), retryCreate)
  }

  /** The endpoints that count for the template at hand are those that `CanApply` counts. */
  lemma CanApplyIsBoth(j: Journal, now: Journal, retryCreate: bool, was: Side, made: map<Id, Kind>, retried: bool)
    requires RemoteOk(was.live, was.issued, made, retried, j.template.id)
    requires j.template.id.None? ==> j.endpoint.id.None? && forall i :: i in made ==> made[i] != Endpoint
    requires Ensured(j.template, now.template, was.live, Listed(was.live, Template, None), retryCreate, was.issued)
    ensures CanApply(j, was.live, retryCreate) <==> BothCan(j, now, retryCreate, was)
  {
    var templates := Listed(was.live, Template, None);
    if j.template.id.None? && CanHave(j.template, was.live, templates, retryCreate) {
      var between := Advanced(j.template, templates, retryCreate, Template, None, was);
      assert RemoteOk(was.live, was.issued, made, retried, None);
      BoundToGot(was.live, was.issued, made, retried, between.live, now.template.id.value);
    }
  }

  class Provisioner {
    var disk: Option<Journal>
    var mem: Journal
    var live: map<Id, Resource>
    /** Ids below this one have been handed out; the provider never reuses an id. */
    var issued: Id
    /** No faults, crashes, drift or interference happen. */
    var calm: bool
    /** Lists show exactly the live resources. */
    const consistent: bool

    /** Resources created by a POST of this journal. */
    ghost var made: map<Id, Kind>
    /** Whether --retry-create was ever given. */
    ghost var retried: bool
    ghost var log: seq<Request>

    ghost function MadeLive(kind: Kind): set<Id>
      reads this`live, this`made
    {
      Own(live, made, kind)
    }

    ghost function Now(): Side
      reads this`live, this`issued, this`log
    {
      Side(live, log, issued)
    }

    function Matching(kind: Kind, templateId: Option<Id>): set<Id>
      reads this`live
    {
      Listed(live, kind, templateId)
    }

    // ------------------------------------------------------------------ invariant

    ghost predicate Consistent(j: Journal)
      reads this`live, this`issued, this`made, this`retried, this`log
    {
      && RemoteOk(live, issued, made, retried, j.template.id)
      && EntryOk(j.template, Template, j.template.id, live, made, consistent)
      && EntryOk(j.endpoint, Endpoint, j.template.id, live, made, consistent)
      && (j.endpoint.createAttempted ==> j.template.id.Some?)
      && (j.status.Destroyed? && consistent ==> MadeLive(Template) == {} && MadeLive(Endpoint) == {})
      && (consistent ==> LogOk(log, made))
      && Posts(log, Template) <= j.template.createAttempts && Posts(log, Endpoint) <= j.endpoint.createAttempts
    }

    /** Holds between commands and at every crash. */
    ghost predicate Valid()
      reads this
    {
      match disk
      case Some(j) => Consistent(j)
      case None => Consistent(NEW_JOURNAL)
    }

    /** Holds while a command runs, between journal updates and their writes. */
    ghost predicate Synced()
      reads this
    {
      disk == Some(mem) && Consistent(mem)
    }

    /** No POST since `before`. */
    ghost predicate NoCreateSince(before: seq<Request>)
      reads this`log
    {
      OnlyDeletesFollow(before, log)
    }

    constructor (consistent: bool, foreign: map<Id, Resource>, issued: Id)
      requires forall i :: i in foreign ==> i < issued && Binds(foreign[i], issued)
      ensures Valid() && disk == None && made == map[] && log == [] && !retried
      ensures this.consistent == consistent && live == foreign
    {
      this.consistent := consistent;
      disk := None;
      mem := NEW_JOURNAL;
      live := foreign;
      this.issued := issued;
      calm := false;
      made := map[];
      retried := false;
      log := [];
    }

    // ------------------------------------------------------------------ primitives

    /** Other tenants delete anything and create resources under other names. */
    method Interfere(ghost j: Journal, ghost kind: Kind, ghost templateId: Option<Id>)
      requires Consistent(j)
      modifies this`live, this`issued
      ensures Consistent(j)
      ensures calm ==> live == old(live) && issued == old(issued)
      ensures Matching(kind, templateId) <= old(Matching(kind, templateId))
      ensures MadeLive(Template) <= old(MadeLive(Template)) && MadeLive(Endpoint) <= old(MadeLive(Endpoint))
    {
      if calm { return; }
      var gone: set<Id> := *;
      var newcomers: map<Id, Resource> := *;
      var next: Id := *;
      var others := map i: Id | i in newcomers && issued <= i < next && !newcomers[i].planNamed && Binds(newcomers[i], next)
        :: newcomers[i];
      Drift(j, (live - gone) + others, if issued <= next then next else issued);
      DriftShrinks(old(live), live, old(issued), made, kind, templateId);
    }

    /** The provider's side after a drift. */
    method Drift(ghost j: Journal, now: map<Id, Resource>, next: Id)
      requires Consistent(j)
      requires Drifts(live, now, issued) && issued <= next
      requires forall i :: i in now && i !in live ==> i < next && Binds(now[i], next)
      modifies this`live, this`issued
      ensures Consistent(j)
      ensures live == now && issued == next
      ensures MadeLive(Template) <= old(MadeLive(Template)) && MadeLive(Endpoint) <= old(MadeLive(Endpoint))
    {
      DriftKeepsRemote(live, issued, now, next, made, retried, j.template.id);
      DriftKeepsEntry(j.template, live, now, issued, made, Template, j.template.id, consistent);
      DriftKeepsEntry(j.endpoint, live, now, issued, made, Endpoint, j.template.id, consistent);
      DriftShrinks(live, now, issued, made, Template, None);
      DriftShrinks(live, now, issued, made, Endpoint, None);
      live, issued := now, next;
    }

    method Fault() returns (fault: bool)
      ensures calm ==> !fault
    {
      fault := *;
      if calm { fault := false; }
    }

    /** `_write_journal`: the file is replaced atomically, so a crash leaves the old or the new one. */
    method Save(next: Journal) returns (exit: Exit)
      requires Valid() && Consistent(next)
      modifies this`mem, this`disk
      ensures exit.Done? || exit.Crashed?
      ensures Valid()
      ensures exit.Done? ==> Synced()
      ensures mem == next.(revision := next.revision + 1)
      ensures disk == Some(mem) || (exit.Crashed? && disk == old(disk))
      ensures calm ==> exit.Done?
    {
      mem := next.(revision := next.revision + 1);
      var early := Fault();
      if early { return Crashed; }
      disk := Some(mem);
      var late := Fault();
      return if late then Crashed else Done;
    }

    /**
      `_reconcile`: list, keep the plan-named resources of the kind (bound to the template for
      endpoints), demand at most one, verify it.  An inconsistent list is any set of ids.
    */
    method Reconcile(kind: Kind, templateId: Option<Id>) returns (reply: Reply<Option<Id>>)
      requires Synced()
      modifies this`live, this`issued
      ensures Synced()
      ensures calm ==> live == old(live) && issued == old(issued)
      ensures MadeLive(Template) <= old(MadeLive(Template)) && MadeLive(Endpoint) <= old(MadeLive(Endpoint))
      ensures kind.Endpoint? && templateId.None? ==> reply == Failed(false) && live == old(live)
      ensures consistent && reply == Ok(None) ==> Matching(kind, templateId) == {}
      ensures consistent && reply.Ok? && reply.value.Some? ==> Matching(kind, templateId) == {reply.value.value}
      ensures calm ==> !reply.Down?
      ensures calm && consistent && (kind.Endpoint? ==> templateId.Some?)
              && AtMostOne(old(Matching(kind, templateId))) ==>
                reply.Ok?
    {
      if kind.Endpoint? && templateId.None? { return Failed(false); }
      var listing := List(kind, templateId);
      if !listing.Ok? { return if listing.Down? then Down else Failed(false); }
      reply := OnlyMatch(listing.value);
    }

    /** The resources that a listing shows as candidates. */
    method List(kind: Kind, templateId: Option<Id>) returns (reply: Reply<set<Id>>)
      requires Synced()
      modifies this`live, this`issued
      ensures Synced()
      ensures calm ==> live == old(live) && issued == old(issued) && reply.Ok?
      ensures MadeLive(Template) <= old(MadeLive(Template)) && MadeLive(Endpoint) <= old(MadeLive(Endpoint))
      ensures consistent && reply.Ok? ==> reply.value == Matching(kind, templateId)
    {
      Interfere(mem, kind, templateId);
      var candidates := Matching(kind, templateId);
      if !consistent { candidates := *; }
      var down := Fault();
      var error := Fault();
      reply := if down then Down else if error then Failed(false) else Ok(candidates);
    }

    /** None without a match, the match when there is one and it verifies. */
    method OnlyMatch(candidates: set<Id>) returns (reply: Reply<Option<Id>>)
      ensures !reply.Down?
      ensures reply == Ok(None) <==> candidates == {}
      ensures reply.Ok? && reply.value.Some? ==> candidates == {reply.value.value}
      ensures calm && AtMostOne(candidates) ==> reply.Ok?
    {
      if candidates == {} { return Ok(None); }
      if |candidates| != 1 {
        ghost var one :| one in candidates;
        assert |candidates - {one}| != 0;
        return Failed(false);
      }
      var drifted := Fault();
      if drifted { return Failed(false); }
      var id :| id in candidates;
      assert candidates == {id} by {
        SubsetOfEqualSize({id}, candidates);
      }
      return Ok(Some(id));
    }

    /** Records what goes over the wire. */
    ghost method Send(request: Request)
      requires Synced()
      requires consistent && request.DeleteRequest? ==>
                 && request.id in made
                 && made[request.id] == request.kind
                 && (request.kind.Template? ==> request.leftEndpoints == {})
      requires request.CreateRequest? ==> Posts(log, request.kind) < mem.Of(request.kind).createAttempts
      modifies this`log
      ensures Synced()
      ensures log == old(log) + [request]
    {
      OneMoreRequest(log, request, Template);
      OneMoreRequest(log, request, Endpoint);
      log := log + [request];
    }

    /** The provider creates the resource a POST asked for. */
    method Create(kind: Kind, templateId: Option<Id>) returns (id: Id)
      requires Synced() && !mem.DestroyBegun()
      requires mem.Of(kind).createAttempted && mem.Of(kind).id.None?
      requires kind.Endpoint? ==> templateId.Some? && templateId == mem.template.id
      requires retried || forall i :: i in made ==> made[i] != kind
      requires consistent ==> Matching(kind, templateId) == {}
      modifies this`live, this`issued, this`made
      ensures Synced()
      ensures id !in old(live) && id !in old(made) && id == old(issued)
      ensures live == old(live)[id := Resource(kind, true, if kind.Endpoint? then templateId else None)]
      ensures made == old(made)[id := kind] && issued == id + 1
      ensures consistent ==> forall i :: i in MadeLive(kind) ==> i == id
    {
      id := issued;
      var resource := Resource(kind, true, if kind.Endpoint? then templateId else None);
      var t := mem.template.id;
      assert consistent ==> MadeLive(kind) <= Matching(kind, templateId);
      CreateKeepsRemote(live, id, made, retried, kind, resource, t);
      CreateKeepsEntry(mem.template, Template, live, id, made, kind, resource, t, consistent);
      CreateKeepsEntry(mem.endpoint, Endpoint, live, id, made, kind, resource, t, consistent);
      assert consistent ==> Own(live[id := resource], made[id := kind], kind) <= {id};
      live := live[id := resource];
      issued := issued + 1;
      made := made[id := kind];
    }

    /**
      The POST that left.  A 4xx answer means nothing was created; any other failure, a reply
      without an id and a crash leave open whether the resource exists.
    */
    method Post(kind: Kind, templateId: Option<Id>) returns (reply: Reply<Option<Id>>)
      requires Synced() && !mem.DestroyBegun()
      requires mem.Of(kind).createAttempted && mem.Of(kind).id.None?
      requires kind.Endpoint? ==> templateId.Some? && templateId == mem.template.id
      requires retried || forall i :: i in made ==> made[i] != kind
      requires consistent ==> Matching(kind, templateId) == {}
      modifies this`live, this`issued, this`made
      ensures Synced()
      ensures reply == Failed(true) ==> made == old(made)
      ensures made == old(made) || exists id: Id {:trigger id in old(made)} :: id !in old(made) && made == old(made)[id := kind]
      ensures reply.Ok? && reply.value.Some? ==>
                && reply.value.value in made
                && made[reply.value.value] == kind
                && (consistent ==> forall i :: i in MadeLive(kind) ==> i == reply.value.value)
      ensures calm ==>
                && reply == Ok(Some(old(issued))) && issued == old(issued) + 1
                && live == old(live)[old(issued) := Resource(kind, true, if kind.Endpoint? then templateId else None)]
      ensures Grows(old(live), live, kind, old(issued))
    {
      var created := Arrive(kind, templateId);
      reply := Answer(created);
    }

    /** The request leaves, and the world moves on in the meantime. */
    method Submit(ghost kind: Kind, ghost templateId: Option<Id>)
      requires Synced() && Posts(log, kind) < mem.Of(kind).createAttempts
      requires consistent ==> Matching(kind, templateId) == {}
      modifies this`live, this`issued, this`log
      ensures Synced() && log == old(log) + [CreateRequest(kind)]
      ensures consistent ==> Matching(kind, templateId) == {}
      ensures calm ==> live == old(live) && issued == old(issued)
    {
      Interfere(mem, kind, templateId);
      Send(CreateRequest(kind));
    }

    /** The POST reaches the provider or is lost. */
    method Arrive(kind: Kind, templateId: Option<Id>) returns (created: Option<Id>)
      requires Synced() && !mem.DestroyBegun()
      requires mem.Of(kind).createAttempted && mem.Of(kind).id.None?
      requires kind.Endpoint? ==> templateId.Some? && templateId == mem.template.id
      requires retried || forall i :: i in made ==> made[i] != kind
      requires consistent ==> Matching(kind, templateId) == {}
      modifies this`live, this`issued, this`made
      ensures Synced()
      ensures created.None? ==> live == old(live) && made == old(made)
      ensures created.Some? ==>
                && created.value !in old(live) && created.value !in old(made)
                && created.value == old(issued) && issued == old(issued) + 1
                && live == old(live)[created.value := Resource(kind, true, if kind.Endpoint? then templateId else None)]
                && made == old(made)[created.value := kind]
                && (consistent ==> forall i :: i in MadeLive(kind) ==> i == created.value)
      ensures calm ==> created.Some?
      ensures Grows(old(live), live, kind, old(issued))
    {
      var lost := Fault();
      if lost { return None; }
      var id := Create(kind, templateId);
      created := Some(id);
    }

    /** How a POST that created `created` may end. */
    method Answer(created: Option<Id>) returns (reply: Reply<Option<Id>>)
      ensures reply == Failed(true) ==> created.None?
      ensures reply.Ok? ==> created.Some? && (reply.value.Some? ==> reply.value == created)
      ensures calm && created.Some? ==> reply == Ok(created)
    {
      var down := Fault();
      if down { return Down; }
      var error := Fault();
      if created.None? || error {
        var rejected: bool := *;
        return Failed(created.None? && rejected);
      }
      var silent := Fault();
      return Ok(if silent then None else created);
    }

    /** `_read`: None exactly when the resource is gone. */
    method Read(id: Id) returns (reply: Reply<Option<Resource>>)
      requires Synced()
      modifies this`live, this`issued
      ensures Synced()
      ensures MadeLive(Template) <= old(MadeLive(Template)) && MadeLive(Endpoint) <= old(MadeLive(Endpoint))
      ensures reply.Ok? ==> reply.value == if id in live then Some(live[id]) else None
      ensures calm ==> reply.Ok? && live == old(live) && issued == old(issued)
    {
      Interfere(mem, Template, None);
      var down := Fault();
      if down { return Down; }
      var error := Fault();
      if error { return Failed(false); }
      return Ok(if id in live then Some(live[id]) else None);
    }

    /** `_delete`: an error may come before or after the resource is gone. */
    method Delete(kind: Kind, id: Id) returns (reply: Reply<()>)
      requires Synced()
      requires consistent ==> id in made && made[id] == kind && (kind.Template? ==> MadeLive(Endpoint) == {})
      modifies this`live, this`issued, this`log
      ensures Synced()
      ensures NoCreateSince(old(log)) && |log| == |old(log)| + 1
      ensures log[|old(log)|].DeleteRequest? && log[|old(log)|].kind == kind && log[|old(log)|].id == id
      ensures MadeLive(Template) <= old(MadeLive(Template)) && MadeLive(Endpoint) <= old(MadeLive(Endpoint))
      ensures calm ==> reply.Ok? && live == old(live) - {id}
    {
      SubmitDelete(kind, id);
      var removed := Remove(id);
      var down := Fault();
      var error := Fault();
      reply := if down then Down else if !removed || error then Failed(false) else Ok(());
    }

    method SubmitDelete(kind: Kind, id: Id)
      requires Synced()
      requires consistent ==> id in made && made[id] == kind && (kind.Template? ==> MadeLive(Endpoint) == {})
      modifies this`live, this`issued, this`log
      ensures Synced()
      ensures log == old(log) + [DeleteRequest(kind, id, MadeLive(Endpoint))]
      ensures MadeLive(Template) <= old(MadeLive(Template)) && MadeLive(Endpoint) <= old(MadeLive(Endpoint))
      ensures calm ==> live == old(live)
    {
      Interfere(mem, kind, None);
      Send(DeleteRequest(kind, id, MadeLive(Endpoint)));
    }

    /** The DELETE reaches the provider or is lost. */
    method Remove(id: Id) returns (removed: bool)
      requires Synced()
      modifies this`live, this`issued
      ensures Synced()
      ensures live == if removed then old(live) - {id} else old(live)
      ensures calm ==> removed
      ensures MadeLive(Template) <= old(MadeLive(Template)) && MadeLive(Endpoint) <= old(MadeLive(Endpoint))
    {
      var lost := Fault();
      if !lost { Drift(mem, live - {id}, issued); }
      return !lost;
    }

    // ------------------------------------------------------------------ the source's functions

    /** `_checkpoint_resource`. */
    method Checkpoint(kind: Kind, id: Id) returns (exit: Exit)
      requires Synced() && mem.Of(kind).createAttempted && mem.Of(kind).id.None?
      requires kind.Endpoint? ==> mem.template.id.Some?
      requires consistent ==> id in made && made[id] == kind && forall i :: i in MadeLive(kind) ==> i == id
      modifies this`mem, this`disk
      ensures exit.Done? || exit.Crashed?
      ensures Valid() && (exit.Done? ==> Synced())
      ensures mem == old(mem).With(kind, old(mem).Of(kind).(id := Some(id), phase := Created)).(revision := mem.revision)
      ensures disk == Some(mem) || (exit.Crashed? && disk == old(disk))
      ensures calm ==> exit.Done?
    {
      var next := mem.With(kind, mem.Of(kind).(id := Some(id), phase := Created));
      assert Matching(Template, next.template.id) == Matching(Template, mem.template.id);
      exit := Save(next);
    }

    /** Moves one entry to another phase and writes the journal. */
    method SetPhase(kind: Kind, phase: Phase) returns (exit: Exit)
      requires Synced()
      modifies this`mem, this`disk
      ensures exit.Done? || exit.Crashed?
      ensures Valid() && (exit.Done? ==> Synced())
      ensures mem == old(mem).With(kind, old(mem).Of(kind).(phase := phase)).(revision := mem.revision)
      ensures disk == Some(mem) || (exit.Crashed? && disk == old(disk))
      ensures calm ==> exit.Done?
    {
      exit := Save(mem.With(kind, mem.Of(kind).(phase := phase)));
    }

    /** Moves one entry to another phase, writes the journal and raises. */
    method RaiseIn(kind: Kind, phase: Phase) returns (exit: Exit)
      requires Synced()
      modifies this`mem, this`disk
      ensures exit.Raised? || exit.Crashed?
      ensures Valid() && (exit.Raised? ==> Synced())
      ensures mem == old(mem).With(kind, old(mem).Of(kind).(phase := phase)).(revision := mem.revision)
      ensures disk == Some(mem) || (exit.Crashed? && disk == old(disk))
      ensures calm ==> exit.Raised?
    {
      exit := SetPhase(kind, phase);
      if exit.Done? { exit := Raised; }
    }

    /** The write-ahead record of a POST. */
    method BeginCreate(kind: Kind) returns (exit: Exit)
      requires Synced() && mem.Of(kind).id.None?
      requires kind.Endpoint? ==> mem.template.id.Some?
      requires consistent ==> Matching(kind, mem.template.id) == {}
      modifies this`mem, this`disk
      ensures exit.Done? || exit.Crashed?
      ensures Valid() && (exit.Done? ==> Synced())
      ensures var e := old(mem).Of(kind);
              mem == old(mem).With(kind, e.(phase := Creating, createAttempted := true, createAttempts := e.createAttempts + 1))
                        .(revision := mem.revision)
      ensures disk == Some(mem) || (exit.Crashed? && disk == old(disk))
      ensures calm ==> exit.Done?
    {
      var e := mem.Of(kind);
      exit := Save(mem.With(kind, e.(phase := Creating, createAttempted := true,
                                     createAttempts := e.createAttempts + 1)));
    }

    /** A 4xx answer to a first POST: nothing was created. */
    method RejectCreate(kind: Kind) returns (exit: Exit)
      requires Synced() && mem.Of(kind).id.None?
      requires forall i :: i in made ==> made[i] != kind
      requires kind.Template? ==> !mem.endpoint.createAttempted
      modifies this`mem, this`disk
      ensures exit.Raised? || exit.Crashed?
      ensures Valid() && (exit.Raised? ==> Synced())
      ensures mem == old(mem).With(kind, old(mem).Of(kind).(phase := CreateRejected, createAttempted := false))
                        .(revision := mem.revision)
      ensures disk == Some(mem) || (exit.Crashed? && disk == old(disk))
      ensures calm ==> exit.Raised?
    {
      exit := Save(mem.With(kind, mem.Of(kind).(phase := CreateRejected, createAttempted := false)));
      if exit.Done? { exit := Raised; }
    }

    /** The journal says that a create was attempted before the POST leaves. */
    method Announce(kind: Kind, templateId: Option<Id>) returns (exit: Exit)
      requires Synced() && mem.Of(kind).id.None?
      requires kind.Endpoint? ==> templateId.Some? && templateId == mem.template.id
      requires consistent ==> Matching(kind, templateId) == {}
      modifies this`disk, this`mem, this`live, this`issued, this`log
      ensures exit.Done? || exit.Crashed?
      ensures Valid() && (exit.Done? ==> Synced())
      ensures disk == Some(mem) || (exit.Crashed? && disk == old(disk))
      ensures var e := old(mem).Of(kind);
              mem == old(mem).With(kind, e.(phase := Creating, createAttempted := true, createAttempts := e.createAttempts + 1))
                        .(revision := mem.revision)
      ensures log == if exit.Done? then old(log) + [CreateRequest(kind)] else old(log)
      ensures exit.Done? && consistent ==> Matching(kind, templateId) == {}
      ensures calm ==> exit.Done? && live == old(live) && issued == old(issued)
    {
      exit := BeginCreate(kind);
      if exit.Done? { Submit(kind, templateId); }
    }

    /** The part of `_ensure` from the write-ahead record to a known id. */
    method CreateOnce(kind: Kind, templateId: Option<Id>) returns (exit: Exit, id: Id)
      requires Synced() && !mem.DestroyBegun() && mem.Of(kind).id.None?
      requires kind.Endpoint? ==> templateId.Some? && templateId == mem.template.id
      requires mem.Of(kind).createAttempted ==> retried
      requires consistent ==> Matching(kind, templateId) == {}
      modifies this`disk, this`mem, this`live, this`issued, this`made, this`log
      ensures Valid() && disk.Some? && disk.value.status == old(mem).status
      ensures !exit.Crashed? ==> Synced() && mem.status == old(mem).status
      ensures exit.Done? ==> mem.Of(kind).createAttempted && mem.Of(kind).id.None?
      ensures mem == old(mem).With(kind, mem.Of(kind)).(revision := mem.revision)
      ensures exit.Done? && consistent ==> id in made && made[id] == kind && forall i :: i in MadeLive(kind) ==> i == id
      ensures calm ==>
                && exit.Done? && id == old(issued) && issued == id + 1
                && mem.Of(kind) == Entry(None, Creating, true, old(mem).Of(kind).createAttempts + 1)
                && Now() == WithNew(kind, templateId, old(Now()))
    {
      id := 0;
      var hadPrior := mem.Of(kind).createAttempted;
      exit := Announce(kind, templateId);
      if exit.Done? { exit, id := PostOnce(kind, templateId, hadPrior); }
    }

    /** The POST, once the journal announced it. */
    method PostOnce(kind: Kind, templateId: Option<Id>, hadPrior: bool) returns (exit: Exit, id: Id)
      requires Synced() && !mem.DestroyBegun() && mem.Of(kind).createAttempted && mem.Of(kind).id.None?
      requires kind.Endpoint? ==> templateId.Some? && templateId == mem.template.id
      requires retried || forall i :: i in made ==> made[i] != kind
      requires !hadPrior ==> (forall i :: i in made ==> made[i] != kind) && (kind.Template? ==> !mem.endpoint.createAttempted)
      requires consistent ==> Matching(kind, templateId) == {}
      modifies this`disk, this`mem, this`live, this`issued, this`made
      ensures Valid() && disk.Some? && disk.value.status == old(mem).status
      ensures !exit.Crashed? ==> Synced() && mem.status == old(mem).status
      ensures exit.Done? ==> mem == old(mem)
      ensures mem == old(mem).With(kind, mem.Of(kind)).(revision := mem.revision)
      ensures exit.Done? && consistent ==> id in made && made[id] == kind && forall i :: i in MadeLive(kind) ==> i == id
      ensures calm ==>
                && exit.Done? && id == old(issued) && issued == id + 1
                && live == old(live)[id := Resource(kind, true, if kind.Endpoint? then templateId else None)]
    {
      var posted := Post(kind, templateId);
      exit, id := AfterPost(kind, templateId, posted, hadPrior);
    }

    /** What `_ensure` makes of the answer to its POST. */
    method AfterPost(kind: Kind, templateId: Option<Id>, posted: Reply<Option<Id>>, hadPrior: bool) returns (exit: Exit, id: Id)
      requires Synced() && mem.Of(kind).createAttempted && mem.Of(kind).id.None?
      requires kind.Endpoint? ==> templateId.Some? && templateId == mem.template.id
      requires posted == Failed(true) && !hadPrior ==>
                 (forall i :: i in made ==> made[i] != kind) && (kind.Template? ==> !mem.endpoint.createAttempted)
      requires consistent && posted.Ok? && posted.value.Some? ==>
                 posted.value.value in made && made[posted.value.value] == kind && forall i :: i in MadeLive(kind) ==> i == posted.value.value
      modifies this`disk, this`mem, this`live, this`issued
      ensures Valid() && disk.Some? && disk.value.status == old(mem).status
      ensures !exit.Crashed? ==> Synced() && mem.status == old(mem).status
      ensures exit.Done? ==> mem == old(mem)
      ensures mem == old(mem).With(kind, mem.Of(kind)).(revision := mem.revision)
      ensures exit.Done? && consistent ==> id in made && made[id] == kind && forall i :: i in MadeLive(kind) ==> i == id
      ensures calm ==> !exit.Crashed? || posted.Down?
      ensures posted.Ok? ==> live == old(live) && issued == old(issued) && mem == old(mem)
      ensures posted.Ok? ==> if posted.value.None? then exit.Raised? else exit.Done? && id == posted.value.value
    {
      id := 0;
      match posted {
        case Down =>
          exit := Crashed;
        case Ok(created) =>
          if created.None? { exit := Raised; } else { exit, id := Done, created.value; }
        case Failed(rejected) =>
          exit, id := AfterError(kind, templateId, rejected && !hadPrior);
      }
    }

    /** The journal after a POST that left nothing to adopt: rejected for certain, or of unknown outcome. */
    function Unfinished(j: Journal, kind: Kind, rejected: bool): Journal {
      j.With(kind, if rejected then j.Of(kind).(phase := CreateRejected, createAttempted := false)
                   else j.Of(kind).(phase := CreateOutcomeUnknown))
    }

    /** The failed POST: a definite rejection, or whatever a listing shows. */
    method AfterError(kind: Kind, templateId: Option<Id>, rejected: bool) returns (exit: Exit, id: Id)
      requires Synced() && mem.Of(kind).createAttempted && mem.Of(kind).id.None?
      requires kind.Endpoint? ==> templateId.Some? && templateId == mem.template.id
      requires rejected ==> (forall i :: i in made ==> made[i] != kind) && (kind.Template? ==> !mem.endpoint.createAttempted)
      modifies this`disk, this`mem, this`live, this`issued
      ensures Valid() && disk.Some? && disk.value.status == old(mem).status
      ensures !exit.Crashed? ==> Synced() && mem.status == old(mem).status
      ensures exit.Done? ==> mem == old(mem) && !rejected
      ensures exit.Raised? ==> disk == Some(mem) && (mem == old(mem) || mem == Unfinished(old(mem), kind, rejected).(revision := mem.revision))
      ensures calm && consistent && AtMostOne(old(Matching(kind, templateId))) ==>
                if rejected || old(Matching(kind, templateId)) == {}
                then exit.Raised? && mem == Unfinished(old(mem), kind, rejected).(revision := mem.revision)
                else exit.Done? && old(Matching(kind, templateId)) == {id}
      ensures mem == old(mem).With(kind, mem.Of(kind)).(revision := mem.revision)
      ensures calm ==> !exit.Crashed?
      ensures exit.Done? && consistent ==> id in made && made[id] == kind && forall i :: i in MadeLive(kind) ==> i == id
    {
      id := 0;
      var again := Reconcile(kind, templateId);
      if again.Down? {
        exit := Crashed;
      } else if again.Failed? {
        exit := Raised;
      } else if rejected {
        exit := RejectCreate(kind);
      } else if again.value.None? {
        exit := RaiseIn(kind, CreateOutcomeUnknown);
      } else {
        exit, id := Done, again.value.value;
        assert consistent ==> id in Matching(kind, templateId) && MadeLive(kind) <= Matching(kind, templateId);
      }
    }

    /** The part of `_ensure` that finds an id for an entry that has none. */
    method Acquire(kind: Kind, templateId: Option<Id>, retryCreate: bool) returns (exit: Exit)
      requires Synced() && !mem.DestroyBegun() && mem.Of(kind).id.None?
      requires kind.Endpoint? ==> templateId.Some? && templateId == mem.template.id
      requires retryCreate ==> retried
      modifies this`disk, this`mem, this`live, this`issued, this`made, this`log
      ensures Valid() && disk.Some? && disk.value.status == old(mem).status
      ensures !exit.Crashed? ==> Synced() && mem.status == old(mem).status
      ensures exit.Done? ==> mem.Of(kind).id.Some?
      ensures mem == old(mem).With(kind, mem.Of(kind)).(revision := mem.revision)
      ensures calm ==> !exit.Crashed?
      ensures calm && consistent ==> (exit.Done? <==> CanHave(old(mem).Of(kind), old(live), old(Matching(kind, templateId)), retryCreate))
      ensures calm && consistent ==> Acquired(old(mem).Of(kind), mem.Of(kind), old(Matching(kind, templateId)), retryCreate, old(issued))
      ensures calm && consistent ==>
                Now() == Advanced(old(mem).Of(kind), old(Matching(kind, templateId)), retryCreate, kind, templateId, old(Now()))
    {
      var previousPhase := mem.Of(kind).phase;
      var found;
      exit, found := Search(kind, templateId);
      if exit.Done? { exit := Settle(kind, templateId, retryCreate, previousPhase, found); }
    }

    /** The first reconciliation of `_ensure`; it raises over foreign matches, or when the listing fails. */
    method Search(kind: Kind, templateId: Option<Id>) returns (exit: Exit, found: Option<Id>)
      requires Synced() && mem.Of(kind).id.None?
      requires kind.Endpoint? ==> templateId.Some? && templateId == mem.template.id
      modifies this`disk, this`mem, this`live, this`issued
      ensures Valid() && disk.Some? && disk.value.status == old(mem).status
      ensures !exit.Crashed? ==> Synced()
      ensures mem == old(mem).With(kind, old(mem).Of(kind).(phase := Reconciling)).(revision := mem.revision)
      ensures exit.Done? && consistent ==> Matching(kind, templateId) == if found.Some? then {found.value} else {}
      ensures calm ==> !exit.Crashed? && Now() == old(Now())
      ensures calm && consistent && exit.Raised? ==> Matching(kind, templateId) != {} && !mem.Of(kind).createAttempted
    {
      found := None;
      exit := SetPhase(kind, Reconciling);
      if !exit.Done? { return; }
      assert consistent && mem.Of(kind).createAttempted ==> Matching(kind, templateId) <= MadeLive(kind);
      var reply := Reconcile(kind, templateId);
      if reply.Down? { return Crashed, None; }
      if reply.Failed? { return Raised, None; }
      found := reply.value;
    }

    /** `_ensure` after its first reconciliation. */
    method Settle(kind: Kind, templateId: Option<Id>, retryCreate: bool, previousPhase: Phase, actual: Option<Id>)
      returns (exit: Exit)
      requires Synced() && !mem.DestroyBegun() && mem.Of(kind).id.None?
      requires kind.Endpoint? ==> templateId.Some? && templateId == mem.template.id
      requires mem.Of(kind).phase.Reconciling? && (retryCreate ==> retried)
      requires consistent ==> Matching(kind, templateId) == if actual.Some? then {actual.value} else {}
      modifies this`disk, this`mem, this`live, this`issued, this`made, this`log
      ensures Valid() && disk.Some? && disk.value.status == old(mem).status
      ensures !exit.Crashed? ==> Synced() && mem.status == old(mem).status
      ensures exit.Done? ==> mem.Of(kind).id.Some?
      ensures mem == old(mem).With(kind, mem.Of(kind)).(revision := mem.revision)
      ensures calm ==>
                && !exit.Crashed?
                && (exit.Done? <==>
                      if actual.Some? then old(mem).Of(kind).createAttempted
                      else retryCreate || (!old(mem).Of(kind).createAttempted && !previousPhase.CreateRejected?))
      ensures calm ==>
                var e, matching := old(mem).Of(kind).(phase := previousPhase), if actual.Some? then {actual.value} else {};
                && Acquired(e, mem.Of(kind), matching, retryCreate, old(issued))
                && Now() == Advanced(e, matching, retryCreate, kind, templateId, old(Now()))
    {
      var attempted := mem.Of(kind).createAttempted;
      if actual.Some? {
        if !attempted { return Raised; }
        assert consistent ==> actual.value in Matching(kind, templateId) && MadeLive(kind) <= Matching(kind, templateId);
        exit := Checkpoint(kind, actual.value);
      } else {
        exit := SettleNew(kind, templateId, retryCreate, previousPhase);
      }
    }

    /** ... when nothing was found. */
    method SettleNew(kind: Kind, templateId: Option<Id>, retryCreate: bool, previousPhase: Phase) returns (exit: Exit)
      requires Synced() && !mem.DestroyBegun() && mem.Of(kind).id.None?
      requires kind.Endpoint? ==> templateId.Some? && templateId == mem.template.id
      requires mem.Of(kind).phase.Reconciling? && (retryCreate ==> retried)
      requires consistent ==> Matching(kind, templateId) == {}
      modifies this`disk, this`mem, this`live, this`issued, this`made, this`log
      ensures Valid() && disk.Some? && disk.value.status == old(mem).status
      ensures !exit.Crashed? ==> Synced() && mem.status == old(mem).status
      ensures exit.Done? ==> mem.Of(kind).id.Some?
      ensures mem == old(mem).With(kind, mem.Of(kind)).(revision := mem.revision)
      ensures calm ==>
                var e := old(mem).Of(kind).(phase := previousPhase);
                && !exit.Crashed? && (exit.Done? <==> Creates(e, {}, retryCreate))
                && Acquired(e, mem.Of(kind), {}, retryCreate, old(issued))
                && Now() == Advanced(e, {}, retryCreate, kind, templateId, old(Now()))
    {
      var attempted := mem.Of(kind).createAttempted;
      if attempted && !retryCreate {
        exit := RaiseIn(kind, CreateOutcomeUnknown);
      } else if previousPhase.CreateRejected? && !retryCreate {
        exit := RaiseIn(kind, CreateRejected);
      } else {
        exit := CreateAndCheckpoint(kind, templateId);
      }
    }

    method CreateAndCheckpoint(kind: Kind, templateId: Option<Id>) returns (exit: Exit)
      requires Synced() && !mem.DestroyBegun() && mem.Of(kind).id.None?
      requires kind.Endpoint? ==> templateId.Some? && templateId == mem.template.id
      requires mem.Of(kind).createAttempted ==> retried
      requires consistent ==> Matching(kind, templateId) == {}
      modifies this`disk, this`mem, this`live, this`issued, this`made, this`log
      ensures Valid() && disk.Some? && disk.value.status == old(mem).status
      ensures !exit.Crashed? ==> Synced() && mem.status == old(mem).status
      ensures exit.Done? ==> mem.Of(kind).id.Some?
      ensures mem == old(mem).With(kind, mem.Of(kind)).(revision := mem.revision)
      ensures calm ==>
                && exit.Done?
                && mem.Of(kind) == Entry(Some(old(issued)), Created, true, old(mem).Of(kind).createAttempts + 1)
                && Now() == WithNew(kind, templateId, old(Now()))
    {
      var id;
      exit, id := CreateOnce(kind, templateId);
      if exit.Done? { exit := Checkpoint(kind, id); }
    }

    /** `_ensure`: returns the id of a verified resource or raises. */
    method Ensure(kind: Kind, templateId: Option<Id>, retryCreate: bool) returns (exit: Exit, id: Id)
      requires Synced() && !mem.DestroyBegun()
      requires kind.Endpoint? ==> templateId.Some? && templateId == mem.template.id
      requires retryCreate ==> retried
      modifies this`disk, this`mem, this`live, this`issued, this`made, this`log
      ensures Valid() && disk.Some? && disk.value.status == old(mem).status
      ensures !exit.Crashed? ==> Synced() && mem.status == old(mem).status
      ensures exit.Done? ==> mem.Of(kind).id == Some(id)
      ensures exit.Done? && old(mem).Of(kind).id.Some? ==> Some(id) == old(mem).Of(kind).id
      ensures mem == old(mem).With(kind, mem.Of(kind)).(revision := mem.revision)
      ensures calm ==> !exit.Crashed?
      ensures calm && consistent ==> (exit.Done? <==> CanHave(old(mem).Of(kind), old(live), old(Matching(kind, templateId)), retryCreate))
      ensures calm && consistent ==>
                Ensured(old(mem).Of(kind), mem.Of(kind), old(live), old(Matching(kind, templateId)), retryCreate, old(issued))
      ensures calm && consistent ==>
                Now() == Advanced(old(mem).Of(kind), old(Matching(kind, templateId)), retryCreate, kind, templateId, old(Now()))
    {
      id := 0;
      if mem.Of(kind).id.None? {
        exit := Acquire(kind, templateId, retryCreate);
        if !exit.Done? { return; }
      }
      id := mem.Of(kind).id.value;
      exit := ReadVerified(kind, id);
    }

    /** `_discover`: the journaled id, or the one a listing shows for an attempted create. */
    method Discover(kind: Kind, templateId: Option<Id>) returns (exit: Exit, id: Option<Id>)
      requires Synced()
      requires kind.Endpoint? ==> templateId == mem.template.id
      modifies this`disk, this`mem, this`live, this`issued
      ensures Valid() && disk.Some? && disk.value.status == old(mem).status
      ensures !exit.Crashed? ==> Synced() && mem.status == old(mem).status
      ensures exit.Done? ==> id == mem.Of(kind).id && mem.Of(kind).createAttempted == old(mem).Of(kind).createAttempted
      ensures exit.Done? ==> if kind.Endpoint? then mem.template == old(mem).template else mem.endpoint == old(mem).endpoint
      ensures MadeLive(Template) <= old(MadeLive(Template)) && MadeLive(Endpoint) <= old(MadeLive(Endpoint))
      ensures mem == old(mem).With(kind, mem.Of(kind)).(revision := mem.revision)
      ensures calm && consistent ==> exit.Done? && live == old(live)
      ensures calm ==> !exit.Crashed?
      ensures calm && consistent ==> Discovered(old(mem).Of(kind), mem.Of(kind), old(Matching(kind, templateId)))
      ensures calm && consistent ==>
                (id.Some? <==> old(mem).Of(kind).id.Some?
                               || (old(mem).Of(kind).createAttempted && old(Matching(kind, templateId)) != {}))
      ensures old(mem).Of(kind).id.Some? && exit.Done? ==> id == old(mem).Of(kind).id
      ensures consistent && exit.Done? && id.None? && mem.Of(kind).createAttempted ==> Matching(kind, templateId) == {}
      ensures calm && consistent && old(mem).Of(kind).id.None? && id.Some? ==> id.value in live
    {
      id := mem.Of(kind).id;
      if id.Some? || !mem.Of(kind).createAttempted { return Done, id; }
      assert consistent ==> Matching(kind, templateId) <= MadeLive(kind);
      var found := Reconcile(kind, templateId);
      if found.Down? { return Crashed, None; }
      if found.Failed? { return Raised, None; }
      if found.value.None? { return Done, None; }
      id := found.value;
      assert consistent ==> id.value in Matching(kind, templateId) && MadeLive(kind) <= Matching(kind, templateId);
      exit := Checkpoint(kind, id.value);
    }

    /** `_destroy_one`. */
    method DestroyOne(kind: Kind, templateId: Option<Id>) returns (exit: Exit)
      requires Synced() && mem.status.Destroying?
      requires kind.Endpoint? ==> templateId == mem.template.id
      requires consistent && kind.Template? ==> MadeLive(Endpoint) == {}
      modifies this`disk, this`mem, this`live, this`issued, this`log
      ensures Valid() && disk.Some? && disk.value.status.Destroying?
      ensures !exit.Crashed? ==> Synced() && mem.status.Destroying?
      ensures NoCreateSince(old(log))
      ensures MadeLive(Template) <= old(MadeLive(Template)) && MadeLive(Endpoint) <= old(MadeLive(Endpoint))
      ensures consistent && exit.Done? ==> MadeLive(kind) == {}
      ensures calm && consistent ==> (exit.Done? <==> Resolvable(old(mem), old(live), kind))
      ensures mem == old(mem).With(kind, mem.Of(kind)).(revision := mem.revision)
      ensures calm && consistent ==>
                && !exit.Crashed?
                && Removed(old(mem).Of(kind), mem.Of(kind), old(Matching(kind, templateId)))
                && live == old(live) - IdOf(mem.Of(kind))
      ensures calm && consistent && exit.Done? && kind.Endpoint? ==>
                Matching(Template, mem.template.id) == old(Matching(Template, mem.template.id))
    {
      var id: Option<Id>;
      exit, id := Discover(kind, templateId);
      if !exit.Done? { return; }
      if id.None? { exit := RemoveNothing(kind); } else { exit := RemoveKnown(kind, id.value, templateId); }
    }

    /** `_destroy_one` without an id. */
    method RemoveNothing(kind: Kind) returns (exit: Exit)
      requires Synced() && mem.Of(kind).id.None?
      modifies this`disk, this`mem
      ensures Valid() && disk.Some? && disk.value.status == old(mem).status
      ensures !exit.Crashed? ==> Synced() && mem.status == old(mem).status
      ensures exit.Raised? ==> mem == old(mem) && mem.Of(kind).createAttempted
      ensures exit.Done? ==> MadeLive(kind) == {} && !mem.Of(kind).createAttempted && mem.Of(kind) == old(mem).Of(kind).(phase := Deleted)
      ensures mem == old(mem).With(kind, mem.Of(kind)).(revision := mem.revision)
      ensures calm ==> !exit.Crashed?
    {
      if mem.Of(kind).createAttempted { return Raised; }
      assert MadeLive(kind) == {};
      exit := SetPhase(kind, Deleted);
    }

    /** `_destroy_one` once the id is known. */
    method RemoveKnown(kind: Kind, id: Id, templateId: Option<Id>) returns (exit: Exit)
      requires Synced() && mem.Of(kind).id == Some(id)
      requires kind.Endpoint? ==> templateId == mem.template.id
      requires consistent && kind.Template? ==> MadeLive(Endpoint) == {}
      modifies this`disk, this`mem, this`live, this`issued, this`log
      ensures Valid() && disk.Some? && disk.value.status == old(mem).status
      ensures !exit.Crashed? ==> Synced() && mem.status == old(mem).status
      ensures NoCreateSince(old(log))
      ensures MadeLive(Template) <= old(MadeLive(Template)) && MadeLive(Endpoint) <= old(MadeLive(Endpoint))
      ensures consistent && exit.Done? ==> MadeLive(kind) == {}
      ensures calm && consistent ==> exit.Done? && live == old(live) - {id}
      ensures calm && consistent && kind.Endpoint? ==> Matching(Template, mem.template.id) == old(Matching(Template, mem.template.id))
      ensures exit.Done? ==> mem.Of(kind) == old(mem).Of(kind).(phase := Deleted)
      ensures mem == old(mem).With(kind, mem.Of(kind)).(revision := mem.revision)
    {
      assert consistent && id in live ==> live[id].kind == kind;
      exit := RemoveTarget(kind, id, templateId);
      if !exit.Done? { return; }
      assert consistent ==> MadeLive(kind) == {};
      exit := SetPhase(kind, Deleted);
    }

    /** Reads the resource and, when it is still there and the right one, deletes it. */
    method RemoveTarget(kind: Kind, id: Id, templateId: Option<Id>) returns (exit: Exit)
      requires Synced() && mem.Of(kind).id == Some(id)
      requires kind.Endpoint? ==> templateId == mem.template.id
      requires consistent && kind.Template? ==> MadeLive(Endpoint) == {}
      modifies this`disk, this`mem, this`live, this`issued, this`log
      ensures Valid() && disk.Some? && disk.value.status == old(mem).status
      ensures !exit.Crashed? ==> Synced()
      ensures mem == old(mem) || mem == old(mem).With(kind, old(mem).Of(kind).(phase := DeletePending)).(revision := mem.revision)
      ensures NoCreateSince(old(log))
      ensures MadeLive(Template) <= old(MadeLive(Template)) && MadeLive(Endpoint) <= old(MadeLive(Endpoint))
      ensures exit.Done? ==> id !in live
      ensures calm && consistent ==> exit.Done? && live == old(live) - {id}
    {
      var read := Read(id);
      if read.Down? { return Crashed; }
      if read.Failed? { return Raised; }
      if read.value.None? {
        assert live == live - {id};
        return Done;
      }
      exit := RemoveFound(kind, id, read.value.value, templateId);
    }

    method RemoveFound(kind: Kind, id: Id, resource: Resource, templateId: Option<Id>) returns (exit: Exit)
      requires Synced() && mem.Of(kind).id == Some(id) && id in live && live[id] == resource
      requires kind.Endpoint? ==> templateId == mem.template.id
      requires consistent && kind.Template? ==> MadeLive(Endpoint) == {}
      modifies this`disk, this`mem, this`live, this`issued, this`log
      ensures Valid() && disk.Some? && disk.value.status == old(mem).status
      ensures !exit.Crashed? ==> Synced()
      ensures mem == old(mem) || mem == old(mem).With(kind, old(mem).Of(kind).(phase := DeletePending)).(revision := mem.revision)
      ensures NoCreateSince(old(log))
      ensures MadeLive(Template) <= old(MadeLive(Template)) && MadeLive(Endpoint) <= old(MadeLive(Endpoint))
      ensures exit.Done? ==> id !in live
      ensures calm && consistent ==> exit.Done? && live == old(live) - {id}
    {
      exit := CheckTarget(kind, id, resource, templateId);
      if exit.Done? { exit := MarkAndDelete(kind, id); }
    }

    /** Never delete an unrelated target. */
    method CheckTarget(kind: Kind, id: Id, resource: Resource, templateId: Option<Id>) returns (exit: Exit)
      requires Synced() && mem.Of(kind).id == Some(id) && id in live && live[id] == resource
      requires kind.Endpoint? ==> templateId == mem.template.id
      ensures exit == Done || exit == Raised
      ensures exit.Done? ==> if kind.Template? then resource.planNamed else resource.boundTo == templateId
      // The name of an endpoint may drift.
      ensures calm || kind.Endpoint? ==> (exit.Done? <==> if kind.Template? then resource.planNamed else resource.boundTo == templateId)
      ensures calm && consistent ==> exit.Done?
    {
      assert consistent ==> Matches(resource, kind, mem.template.id);
      var drifted := Fault();
      if kind.Template? && (drifted || !resource.planNamed) { return Raised; }
      if kind.Endpoint? && resource.boundTo != templateId { return Raised; }
      return Done;
    }

    /** The phase is durable before the DELETE. */
    method MarkAndDelete(kind: Kind, id: Id) returns (exit: Exit)
      requires Synced() && mem.Of(kind).id == Some(id)
      requires consistent && kind.Template? ==> MadeLive(Endpoint) == {}
      modifies this`disk, this`mem, this`live, this`issued, this`log
      ensures Valid() && disk.Some? && disk.value.status == old(mem).status
      ensures !exit.Crashed? ==> Synced()
      ensures mem == old(mem).With(kind, old(mem).Of(kind).(phase := DeletePending)).(revision := mem.revision)
      ensures NoCreateSince(old(log))
      ensures MadeLive(Template) <= old(MadeLive(Template)) && MadeLive(Endpoint) <= old(MadeLive(Endpoint))
      ensures exit.Done? ==> id !in live
      ensures calm ==> exit.Done? && live == old(live) - {id}
    {
      exit := SetPhase(kind, DeletePending);
      if exit.Done? { exit := DeleteAndConfirm(kind, id); }
    }

    /** The DELETE and the reads that confirm it. */
    method DeleteAndConfirm(kind: Kind, id: Id) returns (exit: Exit)
      requires Synced() && mem.Of(kind).id == Some(id)
      requires consistent && kind.Template? ==> MadeLive(Endpoint) == {}
      modifies this`live, this`issued, this`log
      ensures Synced()
      ensures NoCreateSince(old(log))
      ensures MadeLive(Template) <= old(MadeLive(Template)) && MadeLive(Endpoint) <= old(MadeLive(Endpoint))
      ensures exit.Done? ==> id !in live
      ensures calm ==> exit.Done? && live == old(live) - {id}
    {
      var deleted := Delete(kind, id);
      if deleted.Down? { return Crashed; }
      if deleted.Failed? {
        exit := Confirm(id);
        if !exit.Done? { return; }
      }
      exit := Confirm(id);
    }

    /** A read that must find nothing. */
    method Confirm(id: Id) returns (exit: Exit)
      requires Synced()
      modifies this`live, this`issued
      ensures Synced()
      ensures MadeLive(Template) <= old(MadeLive(Template)) && MadeLive(Endpoint) <= old(MadeLive(Endpoint))
      ensures exit.Done? ==> id !in live
      ensures calm ==> live == old(live) && exit == if id in live then Raised else Done
    {
      var read := Read(id);
      exit := if read.Down? then Crashed else if read.Failed? || read.value.Some? then Raised else Done;
    }

    /** The exception handler of the commands: `_record_error`, then raise. */
    method RecordError(status: Status) returns (exit: Exit)
      requires Synced() && !status.Destroyed?
      modifies this`mem, this`disk
      ensures exit.Raised? || exit.Crashed?
      ensures Valid() && disk.Some?
      ensures disk == Some(old(mem).(status := status, revision := old(mem).revision + 1)) || (exit.Crashed? && disk == old(disk))
      ensures calm ==> exit.Raised?
    {
      exit := Save(mem.(status := status));
      if exit.Done? { exit := Raised; }
    }

    /** The first durable checkpoint, before any API call. */
    method BeginApply() returns (exit: Exit)
      requires Valid()
      modifies this`disk, this`mem
      ensures Valid()
      ensures old(disk).Some? && old(disk).value.DestroyBegun() <==> exit.Raised?
      ensures exit.Raised? ==> disk == old(disk)
      ensures disk == old(disk) || (disk.Some? && disk.value.status.Applying?)
      ensures exit.Done? ==> Synced() && mem.status.Applying?
      ensures exit.Done? ==>
                mem == (if old(disk).Some? then old(disk).value else NEW_JOURNAL).(status := Applying, revision := mem.revision)
      ensures calm && !(old(disk).Some? && old(disk).value.DestroyBegun()) ==> exit.Done?
    {
      mem := NEW_JOURNAL;
      if disk.Some? {
        if disk.value.DestroyBegun() { return Raised; }
        mem := disk.value.(status := Applying);
      }
      exit := Save(mem);
    }

    /** `_apply_plan_locked`. */
    method ApplyPlan(retryCreate: bool) returns (exit: Exit)
      requires Valid()
      modifies this`disk, this`mem, this`live, this`issued, this`made, this`log, this`retried
      ensures Valid()
      ensures retried == (old(retried) || retryCreate)
      ensures old(disk).Some? && old(disk).value.DestroyBegun() ==> exit.Raised? && disk == old(disk) && log == old(log)
      ensures exit.Raised? && !(old(disk).Some? && old(disk).value.DestroyBegun()) ==> disk.Some? && disk.value.status.RecoveryRequired?
      ensures disk.Some? && disk.value.DestroyBegun() ==> old(disk).Some? && old(disk).value.DestroyBegun()
      ensures exit.Done? ==> disk.Some? && disk.value.status.Ready? && disk.value.template.id.Some? && disk.value.endpoint.id.Some?
      ensures calm && consistent && (old(disk).None? || !old(disk).value.DestroyBegun()) ==>
                var j := if old(disk).Some? then old(disk).value else NEW_JOURNAL;
                && !exit.Crashed? && disk.Some?
                && (exit.Done? <==> CanApply(j, old(live), retryCreate))
                && disk.value.status == (if CanApply(j, old(live), retryCreate) then Ready else RecoveryRequired)
                && BothEnsured(j, disk.value, retryCreate, old(Now()), Now())
    {
      retried := retried || retryCreate;
      exit := BeginApply();
      if exit.Done? { exit := Provision(retryCreate); }
    }

    /** The `try` of `_apply_plan_locked` and its handler. */
    method Provision(retryCreate: bool) returns (exit: Exit)
      requires Synced() && !mem.DestroyBegun()
      requires retryCreate ==> retried
      modifies this`disk, this`mem, this`live, this`issued, this`made, this`log
      ensures Valid() && disk.Some? && !disk.value.DestroyBegun()
      ensures exit.Raised? ==> disk.value.status.RecoveryRequired?
      ensures exit.Done? ==> disk.value.status.Ready? && disk.value.template.id.Some? && disk.value.endpoint.id.Some?
      ensures calm && consistent ==>
                && !exit.Crashed?
                && (exit.Done? <==> CanApply(old(mem), old(live), retryCreate))
                && BothEnsured(old(mem), disk.value, retryCreate, old(Now()), Now())
    {
      exit := EnsureBoth(retryCreate);
      if calm && consistent { CanApplyIsBoth(old(mem), mem, retryCreate, old(Now()), old(made), old(retried)); }
      if !exit.Crashed? { exit := ConcludeApply(exit); }
    }

    /** Ready, or the error that `_ensure` raised. */
    method ConcludeApply(tried: Exit) returns (exit: Exit)
      requires Synced() && !mem.DestroyBegun() && !tried.Crashed?
      requires tried.Done? ==> mem.template.id.Some? && mem.endpoint.id.Some?
      modifies this`disk, this`mem
      ensures Valid()
      ensures exit.Done? ==> disk.Some? && disk.value.status.Ready? && disk.value.template.id.Some? && disk.value.endpoint.id.Some?
      ensures exit.Raised? ==> disk.Some? && disk.value.status.RecoveryRequired?
      ensures disk.Some? && !disk.value.DestroyBegun()
      ensures exit.Crashed? || disk == Some(old(mem).(status := if tried.Done? then Ready else RecoveryRequired,
                                                      revision := old(mem).revision + 1))
      ensures calm ==> exit == tried
    {
      if tried.Raised? {
        exit := RecordError(RecoveryRequired);
      } else {
        exit := Save(mem.(status := Ready));
      }
    }

    /** The body of the `try` of `_apply_plan_locked`. */
    method EnsureBoth(retryCreate: bool) returns (exit: Exit)
      requires Synced() && !mem.DestroyBegun()
      requires retryCreate ==> retried
      modifies this`disk, this`mem, this`live, this`issued, this`made, this`log
      ensures Valid() && disk.Some? && disk.value.status == old(mem).status
      ensures !exit.Crashed? ==> Synced() && mem.status == old(mem).status
      ensures exit.Done? ==> mem.template.id.Some? && mem.endpoint.id.Some?
      ensures calm && consistent ==>
                && !exit.Crashed?
                && (exit.Done? <==> BothCan(old(mem), mem, retryCreate, old(Now())))
                && BothEnsured(old(mem), mem, retryCreate, old(Now()), Now())
    {
      var templateId, endpointId;
      exit, templateId := Ensure(Template, None, retryCreate);
      if exit.Done? {
        exit, endpointId := Ensure(Endpoint, Some(templateId), retryCreate);
      }
    }

    /** The body of the `try` of `_recover_plan_locked`; nothing is created or deleted. */
    method DiscoverBoth() returns (exit: Exit)
      requires Synced() && !mem.DestroyBegun()
      modifies this`disk, this`mem, this`live, this`issued
      ensures Valid() && disk.Some? && disk.value.status == old(mem).status
      ensures !exit.Crashed? ==> Synced() && mem.status == old(mem).status
      ensures calm ==> !exit.Crashed?
      ensures calm && consistent ==>
                && BothRecovered(old(mem), mem, old(live)) && live == old(live)
                && (exit.Raised? <==> Missing(old(mem).template, live) || Missing(old(mem).endpoint, live))
      ensures calm && consistent ==>
                (exit.Done? && mem.template.id.Some? && mem.endpoint.id.Some?
                 <==> Visible(old(mem), old(live), Template) && Visible(old(mem), old(live), Endpoint))
    {
      var templateId, endpointId;
      exit, templateId := DiscoverVerified(Template, None);
      if exit.Done? {
        exit, endpointId := DiscoverVerified(Endpoint, templateId);
      }
    }

    /** `_discover`, then a read of what was found. */
    method DiscoverVerified(kind: Kind, templateId: Option<Id>) returns (exit: Exit, id: Option<Id>)
      requires Synced()
      requires kind.Endpoint? ==> templateId == mem.template.id
      modifies this`disk, this`mem, this`live, this`issued
      ensures Valid() && disk.Some? && disk.value.status == old(mem).status
      ensures !exit.Crashed? ==> Synced() && mem.status == old(mem).status
      ensures exit.Done? ==> id == mem.Of(kind).id
      ensures exit.Done? ==> if kind.Endpoint? then mem.template == old(mem).template else mem.endpoint == old(mem).endpoint
      ensures calm ==> !exit.Crashed?
      ensures mem == old(mem).With(kind, mem.Of(kind)).(revision := mem.revision)
      ensures calm && consistent ==>
                && live == old(live)
                && Recovered(old(mem).Of(kind), mem.Of(kind), old(live), old(Matching(kind, templateId)))
                && (exit.Raised? <==> old(mem).Of(kind).id.Some? && old(mem).Of(kind).id.value !in live)
                && (exit.Done? && mem.Of(kind).id.Some? <==> Visible(old(mem), old(live), kind))
    {
      exit, id := Discover(kind, templateId);
      if exit.Done? && id.Some? {
        exit := ReadVerified(kind, id.value);
      }
    }

    method ReadVerified(kind: Kind, id: Id) returns (exit: Exit)
      requires Synced() && mem.Of(kind).id == Some(id)
      modifies this`disk, this`mem, this`live, this`issued
      ensures Valid() && disk.Some? && disk.value.status == old(mem).status
      ensures !exit.Crashed? ==> Synced() && mem.status == old(mem).status
      ensures exit.Done? ==> mem == old(mem).With(kind, old(mem).Of(kind).(phase := Verified)).(revision := mem.revision)
      ensures exit.Raised? ==> mem == old(mem)
      ensures mem == old(mem).With(kind, mem.Of(kind)).(revision := mem.revision)
      ensures calm ==> !exit.Crashed? && live == old(live) && issued == old(issued) && (exit.Done? <==> id in live)
    {
      var read := Read(id);
      if read.Down? { return Crashed; }
      if read.Failed? || read.value.None? { return Raised; }
      var drifted := Fault();
      if drifted { return Raised; }
      exit := SetPhase(kind, Verified);
    }

    /** `_recover_plan_locked`. */
    method RecoverPlan() returns (exit: Exit)
      requires Valid()
      modifies this`disk, this`mem, this`live, this`issued
      ensures Valid()
      ensures old(disk).None? || old(disk).value.DestroyBegun() ==>
                && disk == old(disk) && live == old(live)
                && exit == if old(disk).Some? && old(disk).value.status.Destroyed? then Done else Raised
      ensures disk.Some? ==> old(disk).Some? && (disk.value.DestroyBegun() ==> old(disk).value.DestroyBegun())
      ensures exit.Raised? && old(disk).Some? && !old(disk).value.DestroyBegun() ==> disk.Some? && disk.value.status.RecoveryRequired?
      ensures exit.Done? && old(disk).Some? && !old(disk).value.DestroyBegun() ==>
                && disk.Some?
                && if disk.value.template.id.Some? && disk.value.endpoint.id.Some? then disk.value.status.Ready?
                   else disk.value.status.RecoveryRequired?
      ensures exit.Done? ==> old(disk).Some? && (old(disk).value.DestroyBegun() ==> old(disk).value.status.Destroyed?)
      ensures calm && consistent && old(disk).Some? && !old(disk).value.DestroyBegun() ==>
                && disk.Some?
                && (disk.value.status.Ready? <==> Visible(old(disk).value, old(live), Template) && Visible(old(disk).value, old(live), Endpoint))
                && (!disk.value.status.Ready? ==> disk.value.status.RecoveryRequired?)
                && (disk.value.status.Ready? ==> exit.Done? && disk.value.template.id.Some? && disk.value.endpoint.id.Some?)
                && BothRecovered(old(disk).value, disk.value, old(live)) && live == old(live)
                && exit == if Missing(old(disk).value.template, live) || Missing(old(disk).value.endpoint, live) then Raised else Done
    {
      if disk.None? { return Raised; }
      if disk.value.status.Destroyed? { return Done; }
      if disk.value.DestroyBegun() { return Raised; }
      mem := disk.value;
      exit := RecoverEntries();
    }

    /** The `try` of `_recover_plan_locked` and its handler. */
    method RecoverEntries() returns (exit: Exit)
      requires Synced() && !mem.DestroyBegun()
      modifies this`disk, this`mem, this`live, this`issued
      ensures Valid() && disk.Some? && !disk.value.DestroyBegun()
      ensures exit.Raised? ==> disk.value.status.RecoveryRequired?
      ensures exit.Done? ==>
                if disk.value.template.id.Some? && disk.value.endpoint.id.Some? then disk.value.status.Ready?
                else disk.value.status.RecoveryRequired?
      ensures calm && consistent ==>
                && (disk.value.status.Ready? <==> Visible(old(mem), old(live), Template) && Visible(old(mem), old(live), Endpoint))
                && (!disk.value.status.Ready? ==> disk.value.status.RecoveryRequired?)
                && BothRecovered(old(mem), disk.value, old(live)) && live == old(live)
                && exit == if Missing(old(mem).template, live) || Missing(old(mem).endpoint, live) then Raised else Done
    {
      exit := DiscoverBoth();
      if exit.Crashed? { return; }
      if exit.Raised? {
        exit := RecordError(RecoveryRequired);
      } else if mem.template.id.Some? && mem.endpoint.id.Some? {
        exit := Save(mem.(status := Ready));
      } else {
        exit := RecordError(RecoveryRequired);
        if exit.Raised? { exit := Done; }
      }
    }

    /** The body of the `try` of `_destroy_plan_locked`: endpoint first, then its template. */
    method DestroyBoth() returns (exit: Exit)
      requires Synced() && mem.status.Destroying?
      modifies this`disk, this`mem, this`live, this`issued, this`log
      ensures Valid() && disk.Some? && disk.value.status.Destroying?
      ensures !exit.Crashed? ==> Synced() && mem.status.Destroying?
      ensures NoCreateSince(old(log))
      ensures consistent && exit.Done? ==> MadeLive(Endpoint) == {} && MadeLive(Template) == {}
      ensures calm && consistent ==> (exit.Done? <==> Resolvable(old(mem), old(live), Endpoint) && Resolvable(old(mem), old(live), Template))
      ensures calm && consistent ==> !exit.Crashed? && BothRemoved(old(mem), mem, old(live), live)
    {
      var templateId;
      exit, templateId := Discover(Template, None);
      if exit.Done? { exit := DestroyInOrder(templateId); }
    }

    method DestroyInOrder(templateId: Option<Id>) returns (exit: Exit)
      requires Synced() && mem.status.Destroying? && templateId == mem.template.id
      modifies this`disk, this`mem, this`live, this`issued, this`log
      ensures Valid() && disk.Some? && disk.value.status.Destroying?
      ensures !exit.Crashed? ==> Synced() && mem.status.Destroying?
      ensures NoCreateSince(old(log))
      ensures consistent && exit.Done? ==> MadeLive(Endpoint) == {} && MadeLive(Template) == {}
      ensures calm && consistent ==>
                && !exit.Crashed?
                && (exit.Done? <==> Resolvable(old(mem), old(live), Endpoint) && Resolvable(old(mem), old(live), Template))
                && Removed(old(mem).endpoint, mem.endpoint, Listed(old(live), Endpoint, templateId))
                && if Resolvable(old(mem), old(live), Endpoint)
                   then Removed(old(mem).template, mem.template, Listed(old(live), Template, None))
                        && live == old(live) - IdOf(mem.endpoint) - IdOf(mem.template)
                   else mem.template == old(mem).template && live == old(live)
    {
      exit := DestroyOne(Endpoint, templateId);
      if !exit.Done? { return; }
      exit := DestroyOne(Template, None);
    }

    /** `_destroy_plan_locked`, once the destruction is acknowledged. */
    method DestroyPlan() returns (exit: Exit)
      requires Valid()
      modifies this`disk, this`mem, this`live, this`issued, this`log
      ensures Valid() && NoCreateSince(old(log))
      ensures exit.Done? <==> disk.Some? && disk.value.status.Destroyed? && !exit.Crashed?
      ensures exit.Raised? && old(disk).Some? ==> disk.Some? && disk.value.status.DestroyRecoveryRequired?
      ensures old(disk).None? ==> disk.None? && exit.Raised? && log == old(log) && live == old(live)
      ensures old(disk).Some? && old(disk).value.status.Destroyed? ==>
                disk == old(disk) && log == old(log) && live == old(live) && exit.Done?
      ensures old(disk).Some? && old(disk).value.DestroyBegun() ==> disk.Some? && disk.value.DestroyBegun()
      ensures calm && consistent && old(disk).Some? && !old(disk).value.status.Destroyed? ==>
                && !exit.Crashed? && disk.Some?
                && (exit.Done? <==> Resolvable(old(disk).value, old(live), Endpoint) && Resolvable(old(disk).value, old(live), Template))
                && BothRemoved(old(disk).value, disk.value, old(live), live)
    {
      if disk.None? { return Raised; }
      if disk.value.status.Destroyed? { return Done; }
      exit := Save(disk.value.(status := Destroying));
      if !exit.Done? { return; }
      exit := DestroyBoth();
      if exit.Crashed? { return; }
      if exit.Raised? {
        exit := RecordError(DestroyRecoveryRequired);
        return;
      }
      exit := Save(mem.(status := Destroyed));
    }

    /** Another tenant creates a resource that refers to known ids; in a consistent world not under the plan's name of an attempted kind. */
    method OutsiderCreates(resource: Resource)
      requires Valid()
      modifies this`live, this`issued
      ensures Valid()
    {
      var attempted := disk.Some? && disk.value.Of(resource.kind).createAttempted;
      if Binds(resource, issued) && !(consistent && resource.planNamed && attempted) {
        var now := live[issued := resource];
        assert Own(now, made, Template) == MadeLive(Template) && Own(now, made, Endpoint) == MadeLive(Endpoint);
        live, issued := now, issued + 1;
      }
    }

    /**
      Any sequence of commands, each of which may crash anywhere.  Every reachable state is the
      end of such a run, so the clauses below hold in every reachable state.
    */
    method Run(commands: seq<Command>)
      requires Valid()
      modifies this`disk, this`mem, this`live, this`issued, this`made, this`log, this`retried
      ensures Valid()
      // At most one resource of a kind is ever created without --retry-create ...
      ensures !old(retried) && (forall c :: c in commands ==> c != Apply(true)) ==>
                forall i, j :: i in made && j in made && made[i] == made[j] ==> i == j
      // ... and at most one is live with it, when lists are consistent.
      ensures consistent ==>
                forall k: Kind, i, j :: i in MadeLive(k) && j in MadeLive(k) ==> i == j
      // Write-ahead: the state file counts every POST that was ever sent.
      ensures Posts(log, Template) <= if disk.Some? then disk.value.template.createAttempts else 0
      ensures Posts(log, Endpoint) <= if disk.Some? then disk.value.endpoint.createAttempts else 0
      // No leak, and a destroyed journal stays destroyed.
      ensures consistent && disk.Some? && disk.value.status.Destroyed? ==>
                MadeLive(Template) == {} && MadeLive(Endpoint) == {}
      ensures old(disk).Some? && old(disk).value.status.Destroyed? ==> disk == old(disk)
      // Only the destroy command begins a destruction.
      ensures (forall c :: c in commands ==> c != Destroy) && disk.Some? && disk.value.DestroyBegun() ==>
                old(disk).Some? && old(disk).value.DestroyBegun()
      // No POST once destruction has begun.
      ensures old(disk).Some? && old(disk).value.DestroyBegun() ==>
                old(log) <= log && forall k :: |old(log)| <= k < |log| ==> log[k].DeleteRequest?
      // Only own resources are deleted, and no template while its endpoint exists.
      ensures consistent ==>
                forall k :: 0 <= k < |log| && log[k].DeleteRequest? ==>
                  && log[k].id in made && made[log[k].id] == log[k].kind
                  && (log[k].kind.Template? ==> log[k].leftEndpoints == {})
    {
      for n := 0 to |commands|
        invariant Valid()
        invariant retried ==> old(retried) || Apply(true) in commands[..n]
        invariant (forall c :: c in commands ==> c != Destroy) && disk.Some? && disk.value.DestroyBegun() ==>
                    old(disk).Some? && old(disk).value.DestroyBegun()
        invariant old(disk).Some? && old(disk).value.status.Destroyed? ==> disk == old(disk)
        invariant old(disk).Some? && old(disk).value.DestroyBegun() ==>
                    disk.Some? && disk.value.DestroyBegun() && NoCreateSince(old(log))
      {
        assert commands[n] in commands;
        Execute(commands[n]);
        assert commands[..n + 1] == commands[..n] + [commands[n]];
      }
      assert commands[..|commands|] == commands;
      ValidPromises();
    }

    method Execute(command: Command)
      requires Valid()
      modifies this`disk, this`mem, this`live, this`issued, this`made, this`log, this`retried
      ensures Valid()
      ensures retried == (old(retried) || command == Apply(true))
      ensures old(disk).Some? && old(disk).value.status.Destroyed? ==> disk == old(disk)
      ensures old(disk).Some? && old(disk).value.DestroyBegun() ==>
                disk.Some? && disk.value.DestroyBegun() && NoCreateSince(old(log))
      ensures disk.Some? && disk.value.DestroyBegun() && command != Destroy ==> old(disk).Some? && old(disk).value.DestroyBegun()
    {
      var exit;
      match command
      case Apply(retryCreate) => exit := ApplyPlan(retryCreate);
      case Recover => exit := RecoverPlan();
      case Destroy => exit := DestroyPlan();
      case Outsider(resource) => OutsiderCreates(resource);
    }

    /** What the invariant says without the journal's phases. */
    lemma ValidPromises()
      requires Valid()
      ensures !retried ==> forall i, j :: i in made && j in made && made[i] == made[j] ==> i == j
      ensures consistent ==> forall k: Kind, i, j :: i in MadeLive(k) && j in MadeLive(k) ==> i == j
      ensures Posts(log, Template) <= if disk.Some? then disk.value.template.createAttempts else 0
      ensures Posts(log, Endpoint) <= if disk.Some? then disk.value.endpoint.createAttempts else 0
      ensures consistent && disk.Some? && disk.value.status.Destroyed? ==>
                MadeLive(Template) == {} && MadeLive(Endpoint) == {}
      ensures consistent ==> LogOk(log, made)
    {
      forall k: Kind, i, j | consistent && i in MadeLive(k) && j in MadeLive(k)
        ensures i == j
      {
        if k.Template? {
          assert AtMostOne(MadeLive(Template));
        } else {
          assert AtMostOne(MadeLive(Endpoint));
        }
      }
    }
  }
}
