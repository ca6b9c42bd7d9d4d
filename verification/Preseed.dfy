/**
  The restart-safe multipart pre-seed of scripts/runpod_i2v_seed_volume.py.

  Crashes are treated as in `Provisioning`: every primitive may end in `Crashed`, the method
  then returns at once, and the `ensures` that cover `Crashed` cover a crash at every point.
  SHA-256 is an unknown function `sha`.  Nobody else writes to the volume.
*/
module Preseed {
  import opened Basics
  import opened Multipart

  type Pos = n: nat | n > 0 witness 1

  /** A model object; its role is its position, roles being distinct. */
  datatype Model = Model(size: nat, sha: Digest)

  datatype ObjectStatus = Planned | Uploading | Completed

  datatype ObjectState = ObjectState(status: ObjectStatus, uploadId: Option<Id>, completionAttempted: bool)

  datatype State = State(ready: bool, objects: seq<ObjectState>)

  datatype Upload = Upload(key: Digest, parts: map<nat, Bytes>)

  /** Why a command raised: `Unexpected` and `Drifted` are the branches for a foreign writer. */
  datatype Reason = Unexpected | Drifted | Fault

  datatype Exit = Done | Raised(reason: Reason) | Crashed

  class Seeder {
    const models: seq<Model>
    const sha: Bytes -> Digest
    const partBytes: Pos
    /** Aborting an upload that no longer exists succeeds. */
    const abortIdempotent: bool
    /** What the source serves for each digest when nothing goes wrong. */
    const contents: map<Digest, Bytes>

    // the volume: objects at the model keys, the marker, and open multipart uploads
    var objects: map<Digest, Bytes>
    var marker: Option<seq<Model>>
    var uploads: map<Id, Upload>
    /** Upload ids below this one have been used. */
    var nextUpload: Id

    // the state file and the running command's copy
    var disk: Option<State>
    var mem: State

    /** No faults and no crashes happen, and the source serves `contents`. */
    var calm: bool

    // ------------------------------------------------------------------ invariant

    /** No earlier model has the same digest, hence the same volume key. */
    ghost predicate First(i: nat)
      requires i < |models|
    {
      forall j :: 0 <= j < i ==> models[j].sha != models[i].sha
    }

    ghost predicate DistinctHashes() {
      forall i, j :: 0 <= i < j < |models| ==> models[i].sha != models[j].sha
    }

    ghost predicate Verified(m: Model, content: Bytes) {
      |content| == m.size && sha(content) == m.sha
    }

    ghost predicate ObjectOk(i: nat, o: ObjectState)
      requires i < |models|
      reads this`objects, this`nextUpload
    {
      && (o.status.Completed? ==> o.completionAttempted && o.uploadId.None? && models[i].sha in objects)
      && (o.status.Uploading? <==> o.uploadId.Some?)
      && (o.completionAttempted ==> First(i))
      && (o.uploadId.Some? ==> o.uploadId.value < nextUpload)
      && (First(i) && models[i].sha in objects ==>
            o.completionAttempted && Verified(models[i], objects[models[i].sha]))
    }

    ghost predicate AllStored()
      reads this`objects
    {
      forall i :: 0 <= i < |models| ==> models[i].sha in objects
    }

    ghost predicate Agrees(s: State)
      reads this`objects, this`marker, this`uploads, this`nextUpload
    {
      && (forall u :: u in uploads ==> u < nextUpload)
      && |s.objects| == |models|
      && (forall i :: 0 <= i < |models| ==> ObjectOk(i, s.objects[i]))
      && (forall i, j :: 0 <= i < j < |models| && s.objects[i].uploadId.Some? ==>
            s.objects[i].uploadId != s.objects[j].uploadId)
      && (marker.Some? ==> marker.value == models && DistinctHashes() && AllStored())
      && (s.ready ==> marker.Some?)
    }

    function NewState(): State {
      State(false, seq(|models|, i => ObjectState(Planned, None, false)))
    }

    /** Holds between commands and at every crash. */
    ghost predicate Valid()
      reads this`objects, this`marker, this`uploads, this`nextUpload, this`disk
    {
      Agrees(if disk.Some? then disk.value else NewState())
    }

    ghost predicate Synced()
      reads this`objects, this`marker, this`uploads, this`nextUpload, this`disk, this`mem
    {
      disk == Some(mem) && Agrees(mem)
    }

    /** The source serves the exact content of model `i`. */
    ghost predicate GoodSource(i: nat)
      requires i < |models|
    {
      models[i].sha in contents && Verified(models[i], contents[models[i].sha])
    }

    /** The recorded upload of model `i`, if any, can be aborted. */
    ghost predicate AbortWorks(i: nat, s: State, uploads: map<Id, Upload>)
      requires i < |s.objects|
    {
      s.objects[i].uploadId.Some? ==> abortIdempotent || s.objects[i].uploadId.value in uploads
    }

    constructor (models: seq<Model>, sha: Bytes -> Digest, partBytes: Pos, abortIdempotent: bool,
                 contents: map<Digest, Bytes>, others: map<Digest, Bytes>)
      requires forall m :: m in models ==> m.sha !in others
      ensures this.models == models && this.sha == sha && this.contents == contents
      ensures Valid() && disk == None && marker == None
    {
      this.models := models;
      this.sha := sha;
      this.partBytes := partBytes;
      this.abortIdempotent := abortIdempotent;
      this.contents := contents;
      objects := others;
      marker := None;
      uploads := map[];
      nextUpload := 0;
      disk := None;
      mem := State(false, []);
      calm := false;
    }

    // ------------------------------------------------------------------ primitives

    method Faulty() returns (fault: bool)
      ensures calm ==> !fault
    {
      fault := *;
      if calm { fault := false; }
    }

    /** A fault of a remote call that changes nothing: an exception or the end of the process. */
    method Trouble() returns (exit: Exit)
      ensures exit == Done || exit == Raised(Fault) || exit == Crashed
      ensures calm ==> exit.Done?
    {
      var down := Faulty();
      if down { return Crashed; }
      var error := Faulty();
      return if error then Raised(Fault) else Done;
    }

    /** `_write_state`: atomic replacement, so a crash leaves the old or the new file. */
    method Save(next: State) returns (exit: Exit)
      requires Valid() && Agrees(next)
      modifies this`mem, this`disk
      ensures exit.Done? || exit.Crashed?
      ensures Valid() && mem == next
      ensures exit.Done? ==> Synced()
      ensures disk == Some(next) || (exit.Crashed? && disk == old(disk))
      ensures calm ==> exit.Done?
    {
      mem := next;
      var early := Faulty();
      if early { return Crashed; }
      disk := Some(mem);
      var late := Faulty();
      return if late then Crashed else Done;
    }

    /** `_head_size`. */
    method HeadSize(key: Digest) returns (exit: Exit, size: Option<nat>)
      ensures exit == Done || exit == Raised(Fault) || exit == Crashed
      ensures exit.Done? ==> size == if key in objects then Some(|objects[key]|) else None
      ensures calm ==> exit.Done?
    {
      exit := Trouble();
      size := if key in objects then Some(|objects[key]|) else None;
    }

    /** `_abort_upload`; a failing call may still have removed the upload. */
    method AbortUpload(id: Id) returns (exit: Exit)
      modifies this`uploads
      ensures exit == Done || exit == Raised(Fault) || exit == Crashed
      ensures calm ==> (exit.Done? <==> abortIdempotent || id in old(uploads)) && !exit.Crashed?
      ensures uploads == old(uploads) || uploads == old(uploads) - {id}
      ensures exit.Done? ==> uploads == old(uploads) - {id}
    {
      exit := Trouble();
      if !exit.Done? {
        var lost: bool := *;
        if lost { return; }
      }
      if id !in uploads && !abortIdempotent { exit := if exit.Done? then Raised(Fault) else exit; }
      uploads := uploads - {id};
    }

    method CreateUpload(key: Digest) returns (exit: Exit, id: Id)
      requires Synced()
      modifies this`uploads, this`nextUpload
      ensures Synced()
      ensures id == old(nextUpload) && old(nextUpload) <= nextUpload && (exit.Done? ==> id < nextUpload)
      ensures exit == Done || exit == Raised(Fault) || exit == Crashed
      ensures exit.Done? ==> uploads == old(uploads)[id := Upload(key, map[])]
      ensures calm ==> exit.Done?
      ensures uploads.Keys - {id} == old(uploads).Keys
    {
      id := nextUpload;
      exit := Trouble();
      if !exit.Done? {
        var lost: bool := *;
        if lost { return; }
      }
      uploads := uploads[id := Upload(key, map[])];
      nextUpload := nextUpload + 1;
    }

    method UploadPart(id: Id, number: nat, chunk: Bytes) returns (exit: Exit)
      requires id in uploads
      modifies this`uploads
      ensures exit == Done || exit == Raised(Fault) || exit == Crashed
      ensures uploads == old(uploads)[id := old(uploads)[id].(parts := old(uploads)[id].parts[number := chunk])]
              || (!exit.Done? && uploads == old(uploads))
      ensures calm ==> exit.Done?
    {
      exit := Trouble();
      if !exit.Done? {
        var lost: bool := *;
        if lost { return; }
      }
      uploads := uploads[id := uploads[id].(parts := uploads[id].parts[number := chunk])];
    }

    /** Completion stores the listed parts under the key; a failing call may have done so too. */
    method CompleteUpload(id: Id, count: nat, ghost i: nat) returns (exit: Exit)
      requires Synced() && i < |models|
      requires id in uploads && uploads[id].key == models[i].sha && HasParts(uploads[id].parts, count)
      requires mem.objects[i].completionAttempted && First(i)
      requires Verified(models[i], Assemble(uploads[id].parts, count))
      modifies this`objects, this`uploads
      ensures Synced()
      ensures exit == Done || exit == Raised(Fault) || exit == Crashed
      ensures exit.Done? ==> models[i].sha in objects
      ensures old(objects).Keys <= objects.Keys <= old(objects).Keys + {models[i].sha}
      ensures uploads == old(uploads) || uploads == old(uploads) - {id}
      ensures models[i].sha !in old(objects) ==> (id in uploads <==> models[i].sha !in objects)
      ensures calm ==> exit.Done?
      ensures exit.Done? ==> uploads == old(uploads) - {id}
    {
      exit := Trouble();
      if !exit.Done? {
        var lost: bool := *;
        if lost { return; }
      }
      objects := objects[uploads[id].key := Assemble(uploads[id].parts, count)];
      uploads := uploads - {id};
    }

    method PutMarker() returns (exit: Exit)
      requires Synced() && DistinctHashes() && AllStored()
      modifies this`marker
      ensures Synced()
      ensures exit == Done || exit == Raised(Fault) || exit == Crashed
      ensures exit.Done? ==> marker == Some(models)
      ensures calm ==> exit.Done?
    {
      exit := Trouble();
      if !exit.Done? {
        var lost: bool := *;
        if lost { return; }
      }
      marker := Some(models);
    }

    // ------------------------------------------------------------------ the source's functions

    /** The request for the model at its source; a wrong declared length is an error. */
    method Fetch(i: nat) returns (exit: Exit, declared: nat, body: Bytes)
      requires i < |models|
      ensures exit == Done || exit == Raised(Fault) || exit == Crashed
      ensures exit.Done? ==> declared == models[i].size
      ensures calm ==> !exit.Crashed?
      ensures calm && GoodSource(i) ==> exit.Done? && body == contents[models[i].sha]
    {
      body, declared := *, *;
      exit := Trouble();
      if calm && models[i].sha in contents {
        body := contents[models[i].sha];
        declared := |body|;
      }
      if exit.Done? && declared != models[i].size { exit := Raised(Fault); }
    }

    /** One read of the body: any length up to the part size. */
    method ReadChunk(body: Bytes, position: nat) returns (exit: Exit, chunk: Bytes)
      requires position < |body|
      ensures exit == Done || exit == Raised(Fault) || exit == Crashed
      ensures 0 < |chunk| <= partBytes && position + |chunk| <= |body|
      ensures body[..position + |chunk|] == body[..position] + chunk
      ensures calm ==> exit.Done?
    {
      var length: int := *;
      if length <= 0 || length > partBytes { length := partBytes; }
      if length > |body| - position { length := |body| - position; }
      chunk := body[position..position + length];
      assert body[..position + length] == body[..position] + chunk;
      exit := Trouble();
    }

    /** Part count + 1 of the upload, after its first parts. */
    method SendChunk(id: Id, count: nat, chunk: Bytes) returns (exit: Exit)
      requires id in uploads && HasParts(uploads[id].parts, count)
      modifies this`uploads
      ensures exit == Done || exit == Raised(Fault) || exit == Crashed
      ensures uploads.Keys == old(uploads).Keys && uploads[id].key == old(uploads)[id].key
      ensures HasParts(uploads[id].parts, count) && Assemble(uploads[id].parts, count) == Assemble(old(uploads)[id].parts, count)
      ensures forall k :: 1 <= k <= count ==> uploads[id].parts[k] == old(uploads)[id].parts[k]
      ensures exit.Done? ==>
                && HasParts(uploads[id].parts, count + 1) && uploads[id].parts[count + 1] == chunk
                && Assemble(uploads[id].parts, count + 1) == Assemble(old(uploads)[id].parts, count) + chunk
      ensures calm ==> exit.Done?
    {
      ghost var before := uploads[id].parts;
      exit := UploadPart(id, count + 1, chunk);
      AssembleFrame(before, uploads[id].parts, count);
    }

    /**
      The read loop of `_upload_model`: every chunk is counted, hashed and uploaded under the
      next part number.  `digested` is what the running digest has consumed.
    */
    method Stream(i: nat, id: Id) returns (exit: Exit, count: nat)
      requires i < |models| && id in uploads && uploads[id] == Upload(models[i].sha, map[])
      requires Synced() && mem.objects[i].uploadId == Some(id) // parts go only to an upload that the state file names
      modifies this`uploads
      ensures exit.Done? || exit == Raised(Fault) || exit == Crashed
      ensures exit.Done? ==>
                && id in uploads && uploads[id].key == models[i].sha
                && HasParts(uploads[id].parts, count)
                && Verified(models[i], Assemble(uploads[id].parts, count))
      // No part is empty or too large, and together they never exceed the declared size.
      ensures id in uploads && HasParts(uploads[id].parts, count) && |Assemble(uploads[id].parts, count)| <= models[i].size
      ensures forall k :: 1 <= k <= count ==> 0 < |uploads[id].parts[k]| <= partBytes
      ensures uploads.Keys == old(uploads).Keys
      ensures calm ==> !exit.Crashed?
      ensures calm && GoodSource(i) ==> exit.Done?
    {
      count := 0;
      var declared, body;
      exit, declared, body := Fetch(i);
      if !exit.Done? { return; }
      var byteSize, position := 0, 0;
      var digested: Bytes := [];
      while position < |body|
        invariant 0 <= position <= |body| && digested == body[..position] && byteSize == position
        invariant id in uploads && uploads[id].key == models[i].sha && uploads.Keys == old(uploads).Keys
        invariant HasParts(uploads[id].parts, count) && Assemble(uploads[id].parts, count) == digested
        invariant byteSize <= models[i].size
        invariant forall k :: 1 <= k <= count ==> 0 < |uploads[id].parts[k]| <= partBytes
        invariant calm && GoodSource(i) ==> body == contents[models[i].sha]
      {
        var chunk;
        exit, chunk := ReadChunk(body, position);
        if !exit.Done? { return; }
        byteSize := byteSize + |chunk|;
        if byteSize > models[i].size { return Raised(Fault), count; }
        digested := digested + chunk;
        exit := SendChunk(id, count, chunk);
        if !exit.Done? { return; }
        position, count := position + |chunk|, count + 1;
      }
      assert body[..|body|] == body;
      exit := if byteSize != models[i].size || sha(digested) != models[i].sha then Raised(Fault) else Done;
    }

    /** Everything but the one object entry is unchanged. */
    ghost predicate OnlyEntryChanged(before: State, after: State, i: nat)
      requires |before.objects| == |after.objects|
    {
      forall k :: 0 <= k < |after.objects| && k != i ==> after.objects[k] == before.objects[k]
    }

    /** Changes one object entry and writes the state file. */
    method SaveEntry(i: nat, o: ObjectState) returns (exit: Exit)
      requires Synced() && i < |models| && ObjectOk(i, o)
      requires o.uploadId.Some? ==> forall k :: 0 <= k < |models| && k != i ==> mem.objects[k].uploadId != o.uploadId
      modifies this`disk, this`mem
      ensures exit.Done? || exit.Crashed?
      ensures Valid() && disk.Some? && disk.value.ready == old(mem).ready
      ensures mem == old(mem).(objects := old(mem).objects[i := o])
      ensures exit.Done? ==> Synced()
      ensures calm ==> exit.Done?
    {
      exit := Save(mem.(objects := mem.objects[i := o]));
    }

    /** Aborts the recorded upload and forgets it. */
    method DropUpload(i: nat) returns (exit: Exit)
      requires Synced() && i < |models| && mem.objects[i].uploadId.Some?
      modifies this`uploads, this`disk, this`mem
      ensures exit == Done || exit == Raised(Fault) || exit == Crashed
      ensures Valid() && disk.Some? && disk.value.ready == old(mem).ready
      ensures !exit.Crashed? ==> Synced() && mem.ready == old(mem).ready && OnlyEntryChanged(old(mem), mem, i)
      ensures exit.Done? ==> mem.objects[i] == old(mem).objects[i].(status := Planned, uploadId := None)
      ensures calm ==> (exit.Done? <==> AbortWorks(i, old(mem), old(uploads))) && !exit.Crashed?
      ensures uploads == old(uploads) || uploads == old(uploads) - {old(mem).objects[i].uploadId.value}
      ensures exit.Done? ==> uploads == old(uploads) - {old(mem).objects[i].uploadId.value}
    {
      exit := AbortUpload(mem.objects[i].uploadId.value);
      if exit.Done? {
        exit := SaveEntry(i, mem.objects[i].(status := Planned, uploadId := None));
      }
    }

    /** The `try` of `_upload_model`: create, stream, complete, confirm. */
    method UploadFresh(i: nat) returns (exit: Exit)
      requires Synced() && i < |models| && First(i) && mem.objects[i].uploadId.None?
      requires !mem.ready && marker.None?
      modifies this`objects, this`uploads, this`nextUpload, this`disk, this`mem
      ensures Valid() && disk.Some? && !disk.value.ready
      ensures !exit.Crashed? ==> Synced() && OnlyEntryChanged(old(mem), mem, i)
      ensures exit.Done? ==> mem.objects[i].status.Completed?
      ensures exit.Raised? ==> exit.reason.Fault?
      ensures old(objects).Keys <= objects.Keys <= old(objects).Keys + {models[i].sha}
      ensures old(nextUpload) <= nextUpload
      ensures calm && GoodSource(i) ==> forall u: Id :: u < old(nextUpload) ==> (u in uploads <==> u in old(uploads))
      ensures calm && GoodSource(i) ==> exit.Done?
      // In a calm run only the source can fail; then the upload is open and the state file names it.
      ensures calm ==>
                && !exit.Crashed?
                && (exit.Done? ==> uploads.Keys <= old(uploads).Keys)
                && (exit.Raised? ==>
                      && objects == old(objects) && mem.objects[i].uploadId == Some(old(nextUpload))
                      && uploads.Keys == old(uploads).Keys + {old(nextUpload)})
    {
      var key := models[i].sha;
      var id;
      exit, id := CreateUpload(key);
      if !exit.Done? { return; }
      exit := SaveEntry(i, mem.objects[i].(status := Uploading, uploadId := Some(id)));
      if !exit.Done? { return; }
      var count;
      exit, count := Stream(i, id);
      if !exit.Done? { return; }
      exit := Finish(i, id, count);
    }

    /** `_upload_model` from the verified stream to the completed object. */
    method Finish(i: nat, id: Id, count: nat) returns (exit: Exit)
      requires Synced() && i < |models| && First(i)
      requires id in uploads && uploads[id].key == models[i].sha && HasParts(uploads[id].parts, count)
      requires Verified(models[i], Assemble(uploads[id].parts, count))
      requires !mem.ready && marker.None?
      modifies this`objects, this`uploads, this`disk, this`mem
      ensures Valid() && disk.Some? && !disk.value.ready
      ensures !exit.Crashed? ==> Synced() && OnlyEntryChanged(old(mem), mem, i)
      ensures exit.Done? ==> mem.objects[i].status.Completed?
      ensures exit.Raised? ==> exit.reason.Fault?
      ensures old(objects).Keys <= objects.Keys <= old(objects).Keys + {models[i].sha}
      ensures uploads == old(uploads) || uploads == old(uploads) - {id}
      ensures calm ==> exit.Done? && uploads == old(uploads) - {id}
    {
      // durable before the completion call
      exit := SaveEntry(i, mem.objects[i].(completionAttempted := true));
      if !exit.Done? { return; }
      exit := Complete(i, id, count);
      if !exit.Done? { return; }
      exit := SaveEntry(i, mem.objects[i].(status := Completed, uploadId := None));
    }

    /** The completion call and the reads that confirm it; a failed call is excused by the first read. */
    method Complete(i: nat, id: Id, count: nat) returns (exit: Exit)
      requires Synced() && i < |models| && First(i) && mem.objects[i].completionAttempted
      requires id in uploads && uploads[id].key == models[i].sha && HasParts(uploads[id].parts, count)
      requires Verified(models[i], Assemble(uploads[id].parts, count))
      modifies this`objects, this`uploads
      ensures Synced()
      ensures exit == Done || exit == Raised(Fault) || exit == Crashed
      ensures exit.Done? ==> models[i].sha in objects
      ensures old(objects).Keys <= objects.Keys <= old(objects).Keys + {models[i].sha}
      ensures uploads == old(uploads) || uploads == old(uploads) - {id}
      ensures calm ==> exit.Done? && uploads == old(uploads) - {id}
    {
      exit := CompleteUpload(id, count, i);
      if exit.Crashed? { return; }
      assert exit.Done? ==> ObjectOk(i, mem.objects[i]);
      if exit.Raised? {
        exit := ConfirmSize(i);
        if !exit.Done? { return; }
      }
      exit := ConfirmSize(i);
    }

    /** The object must be there with its exact size. */
    method ConfirmSize(i: nat) returns (exit: Exit)
      requires i < |models|
      ensures exit == Done || exit == Raised(Fault) || exit == Crashed
      ensures exit.Done? ==> models[i].sha in objects && |objects[models[i].sha]| == models[i].size
      ensures calm && models[i].sha in objects && |objects[models[i].sha]| == models[i].size ==> exit.Done?
    {
      var size;
      exit, size := HeadSize(models[i].sha);
      if exit.Done? && size != Some(models[i].size) { exit := Raised(Fault); }
    }

    /** The `except` of `_upload_model`: give up the open upload unless the object exists. */
    method GiveUp(i: nat) returns (exit: Exit)
      requires Synced() && i < |models| && !mem.ready
      modifies this`uploads, this`disk, this`mem
      ensures exit == Raised(Fault) || exit.Crashed?
      ensures Valid() && disk.Some? && !disk.value.ready
      ensures !exit.Crashed? ==> Synced() && OnlyEntryChanged(old(mem), mem, i)
      ensures models[i].sha in objects ==> mem == old(mem) && uploads == old(uploads)
      ensures calm ==> exit.Raised?
      ensures calm && models[i].sha !in objects && AbortWorks(i, old(mem), old(uploads)) ==>
                && mem.objects[i].uploadId.None?
                && (old(mem).objects[i].uploadId.Some? ==>
                      && mem.objects[i] == old(mem).objects[i].(status := Planned, uploadId := None)
                      && uploads == old(uploads) - {old(mem).objects[i].uploadId.value})
    {
      if mem.objects[i].uploadId.Some? {
        var size;
        exit, size := HeadSize(models[i].sha);
        if !exit.Done? { return; }
        if size.None? {
          exit := DropUpload(i);
          if !exit.Done? { return; }
        }
      }
      exit := Raised(Fault);
    }

    /** `_upload_model`. */
    method UploadModel(i: nat) returns (exit: Exit)
      requires Synced() && i < |models| && !mem.ready && marker.None?
      requires forall j :: 0 <= j < i ==> mem.objects[j].status.Completed?
      modifies this`objects, this`uploads, this`nextUpload, this`disk, this`mem
      ensures Valid() && disk.Some? && !disk.value.ready
      ensures !exit.Crashed? ==> Synced() && OnlyEntryChanged(old(mem), mem, i)
      ensures exit.Done? ==> mem.objects[i].status.Completed?
      ensures old(objects).Keys <= objects.Keys <= old(objects).Keys + {models[i].sha}
      ensures First(i) && exit.Raised? ==> exit.reason.Fault?
      ensures !First(i) ==> !exit.Done? && (calm ==> exit == Raised(Unexpected))
      // A completed model is left alone.
      ensures old(mem).objects[i].status.Completed? ==>
                mem == old(mem) && disk == old(disk) && objects == old(objects) && uploads == old(uploads) && (calm ==> exit.Done?)
      ensures calm && First(i) && GoodSource(i) ==>
                (exit.Done? <==> models[i].sha in old(objects) || AbortWorks(i, old(mem), old(uploads)))
      ensures old(nextUpload) <= nextUpload
      // A calm run leaves no new upload behind, whatever the source serves.
      ensures calm ==> !exit.Crashed? && uploads.Keys <= old(uploads).Keys
      ensures calm && First(i) && GoodSource(i) ==> forall u: Id :: u < old(nextUpload) && old(mem).objects[i].uploadId != Some(u) ==>
                (u in uploads <==> u in old(uploads))
    {
      var key := models[i].sha;
      var size;
      exit, size := HeadSize(key);
      if !exit.Done? { return; }
      if mem.objects[i].status.Completed? {
        return if size != Some(models[i].size) then Raised(Drifted) else Done;
      }
      if size.Some? {
        if mem.objects[i].completionAttempted && size.value == models[i].size {
          exit := SaveEntry(i, mem.objects[i].(status := Completed, uploadId := None));
          return;
        }
        return Raised(Unexpected);
      }
      forall j | 0 <= j < i
        ensures models[j].sha != models[i].sha
      {
        assert mem.objects[j].status.Completed?;
      }
      if mem.objects[i].uploadId.Some? {
        exit := DropUpload(i);
        if !exit.Done? { return; }
      }
      exit := UploadFresh(i);
      if exit.Raised? {
        exit := GiveUp(i);
      }
    }

    /** The volume is as the marker of these models says. */
    ghost predicate Exact()
      reads this`marker, this`objects
    {
      && marker == Some(models)
      && forall i :: 0 <= i < |models| ==> models[i].sha in objects && |objects[models[i].sha]| == models[i].size
    }

    /** No reachable state has a marker over a volume that differs. */
    lemma MarkedIsExact(s: State)
      requires Agrees(s) && marker.Some?
      ensures Exact()
    {
      forall i | 0 <= i < |models|
        ensures models[i].sha in objects && |objects[models[i].sha]| == models[i].size
      {
        assert ObjectOk(i, s.objects[i]);
      }
    }

    /** `_remote_ready`: the marker is there, equals the expected one, and every size matches. */
    method RemoteReady() returns (exit: Exit, ready: bool)
      ensures exit in {Done, Raised(Fault), Raised(Drifted), Crashed}
      ensures exit.Done? ==> (ready <==> marker.Some?)
      ensures exit.Done? && ready ==> Exact()
      ensures exit == Raised(Drifted) ==> marker.Some? && !Exact()
      ensures calm ==> exit == if marker.None? || Exact() then Done else Raised(Drifted)
    {
      ready := false;
      exit := Trouble();
      if !exit.Done? || marker.None? { return; }
      if marker.value != models { return Raised(Drifted), false; }
      for i := 0 to |models|
        invariant exit.Done?
        invariant forall j :: 0 <= j < i ==> models[j].sha in objects && |objects[models[j].sha]| == models[j].size
      {
        var size;
        exit, size := HeadSize(models[i].sha);
        if !exit.Done? { return; }
        if size != Some(models[i].size) { return Raised(Drifted), false; }
      }
      ready := true;
    }

    function Loaded(): State
      reads this`disk
    {
      if disk.Some? then disk.value else NewState()
    }

    /** The state `apply` records when it finds the volume ready. */
    function Adopted(): State {
      State(true, seq(|models|, i => ObjectState(Completed, None, true)))
    }

    /** What a calm run needs of the volume: distinct keys, and no upload that cannot be aborted. */
    ghost predicate Convergent()
      reads this`objects, this`uploads, this`disk
    {
      && DistinctHashes()
      && |Loaded().objects| == |models|
      && forall i :: 0 <= i < |models| ==> models[i].sha in objects || AbortWorks(i, Loaded(), uploads)
    }

    /**
      `apply`.  Whatever crashes and faults came before, a calm run ends ready exactly when the
      digests are distinct and every recorded upload that matters can be aborted.
    */
    method Apply(adoptReadyOnly: bool) returns (exit: Exit)
      requires Valid()
      modifies this`objects, this`marker, this`uploads, this`nextUpload, this`disk, this`mem
      ensures Valid()
      ensures exit.Done? ==> marker == Some(models) && disk.Some? && disk.value.ready
      ensures exit.Done? ==> forall i :: 0 <= i < |models| ==>
                disk.value.objects[i].status.Completed? && disk.value.objects[i].uploadId.None?
      ensures DistinctHashes() && exit.Raised? ==> exit.reason.Fault?
      ensures calm && (forall i :: 0 <= i < |models| ==> GoodSource(i)) && !adoptReadyOnly ==>
                (exit.Done? <==> old(Convergent()))
      // Adoption uploads nothing, and takes over exactly a volume that is ready.
      ensures adoptReadyOnly || old(marker).Some? ==>
                objects == old(objects) && uploads == old(uploads) && nextUpload == old(nextUpload) && marker == old(marker)
      ensures adoptReadyOnly && old(marker).None? ==> !exit.Done? && disk == old(disk)
      ensures calm && (adoptReadyOnly || old(marker).Some?) ==> (exit.Done? <==> old(marker).Some?)
      // Whatever the source serves, a calm run leaves no new upload open.
      ensures calm ==> !exit.Crashed? && uploads.Keys <= old(uploads).Keys
    {
      var ready;
      if marker.Some? { MarkedIsExact(Loaded()); }
      exit, ready := RemoteReady();
      if !exit.Done? { return; }
      if ready {
        exit := Adopt();
      } else if adoptReadyOnly {
        exit := Raised(Fault);
      } else {
        exit := Seed();
      }
    }

    /** `apply` on a volume that is ready. */
    method Adopt() returns (exit: Exit)
      requires Valid() && marker.Some?
      modifies this`disk, this`mem
      ensures Valid()
      ensures exit.Done? || exit.Crashed?
      ensures exit.Done? ==> disk == Some(Adopted())
      ensures calm ==> exit.Done?
    {
      assert forall i :: 0 <= i < |models| && ObjectOk(i, Loaded().objects[i]) ==> First(i);
      forall i | 0 <= i < |models|
        ensures ObjectOk(i, Adopted().objects[i])
      {
        assert ObjectOk(i, Loaded().objects[i]);
      }
      exit := Save(Adopted());
    }

    /** `apply` on a volume that is not ready. */
    method Seed() returns (exit: Exit)
      requires Valid() && marker.None?
      modifies this`objects, this`marker, this`uploads, this`nextUpload, this`disk, this`mem
      ensures Valid()
      ensures exit.Done? ==> marker == Some(models) && disk.Some? && disk.value.ready
      ensures exit.Done? ==> forall i :: 0 <= i < |models| ==> disk.value.objects[i].status.Completed?
      ensures DistinctHashes() && exit.Raised? ==> exit.reason.Fault?
      ensures calm && (forall i :: 0 <= i < |models| ==> GoodSource(i)) ==> (exit.Done? <==> old(Convergent()))
      ensures calm ==> !exit.Crashed? && uploads.Keys <= old(uploads).Keys
    {
      exit := Save(Loaded());
      if !exit.Done? { return; }
      exit := Trouble(); // the source client and, for a volume source, its marker
      if !exit.Done? { return; }
      exit := UploadAll();
      if !exit.Done? { return; }
      exit := Seal();
    }

    /** The marker, the check of the whole volume, and the final state. */
    method Seal() returns (exit: Exit)
      requires Synced() && !mem.ready && DistinctHashes() && AllStored()
      modifies this`marker, this`disk, this`mem
      ensures Valid()
      ensures exit == Done || exit == Raised(Fault) || exit == Crashed
      ensures exit.Done? ==> marker == Some(models) && disk == Some(old(mem).(ready := true))
      ensures calm ==> exit.Done?
    {
      exit := PutMarker();
      if !exit.Done? { return; }
      var ready;
      if marker.Some? { MarkedIsExact(mem); }
      exit, ready := RemoteReady();
      if !exit.Done? { return; }
      if !ready { return Raised(Fault); }
      exit := Save(mem.(ready := true));
    }

    /** The loop of `apply` over the models. */
    method UploadAll() returns (exit: Exit)
      requires Synced() && !mem.ready && marker.None?
      modifies this`objects, this`uploads, this`nextUpload, this`disk, this`mem
      ensures Valid()
      ensures exit.Done? ==> Synced() && !mem.ready && DistinctHashes() && AllStored()
      ensures exit.Done? ==> forall i :: 0 <= i < |models| ==> mem.objects[i].status.Completed?
      ensures DistinctHashes() && exit.Raised? ==> exit.reason.Fault?
      ensures calm && (forall i :: 0 <= i < |models| ==> GoodSource(i)) ==> (exit.Done? <==> old(Convergent()))
      ensures calm ==> !exit.Crashed? && uploads.Keys <= old(uploads).Keys
    {
      exit := Done;
      for i := 0 to |models|
        invariant Synced() && !mem.ready
        invariant forall j :: 0 <= j < i ==> mem.objects[j].status.Completed?
        invariant forall j :: i <= j < |models| ==> mem.objects[j] == old(mem).objects[j]
        invariant old(nextUpload) <= nextUpload && exit.Done?
        invariant forall k :: i <= k < |models| && models[k].sha in objects ==>
                    models[k].sha in old(objects) || !First(k)
        invariant old(objects).Keys <= objects.Keys
        invariant calm ==> uploads.Keys <= old(uploads).Keys
        invariant calm && (forall j :: 0 <= j < |models| ==> GoodSource(j)) ==>
                    && (forall j :: 0 <= j < i ==> models[j].sha in old(objects) || AbortWorks(j, old(mem), old(uploads)))
                    && (forall u: Id :: u < old(nextUpload) && (forall j :: 0 <= j < i ==> old(mem).objects[j].uploadId != Some(u)) ==>
                          (u in uploads <==> u in old(uploads)))
      {
        exit := UploadModel(i);
        if !exit.Done? { return; }
      }
      forall i | 0 <= i < |models|
        ensures First(i) && models[i].sha in objects
      {
        assert mem.objects[i].status.Completed?;
      }
    }

    /**
      Any sequence of `apply` commands, each of which may crash anywhere.  Every reachable state
      is the end of such a run.
    */
    method Run(adoptOnly: seq<bool>)
      requires Valid()
      modifies this`objects, this`marker, this`uploads, this`nextUpload, this`disk, this`mem
      ensures Valid()
      // Content: an object at a model key is exactly that model, and `completed` means it is there.
      ensures DistinctHashes() ==>
                forall i :: 0 <= i < |models| && models[i].sha in objects ==> Verified(models[i], objects[models[i].sha])
      ensures disk.Some? ==>
                && |disk.value.objects| == |models|
                && forall i :: 0 <= i < |models| && disk.value.objects[i].status.Completed? ==> models[i].sha in objects
      // Marker: it is exact, all objects are present and verified, and no digest occurs twice.
      ensures (disk.Some? && disk.value.ready) ==> marker.Some?
      ensures marker.Some? ==>
                && marker.value == models
                && DistinctHashes()
                && forall i :: 0 <= i < |models| ==> models[i].sha in objects && Verified(models[i], objects[models[i].sha])
    {
      for n := 0 to |adoptOnly|
        invariant Valid()
      {
        var exit := Apply(adoptOnly[n]);
      }
      ghost var s := Loaded();
      forall i | 0 <= i < |models|
        ensures DistinctHashes() && models[i].sha in objects ==> Verified(models[i], objects[models[i].sha])
      {
        assert ObjectOk(i, s.objects[i]);
      }
    }
  }
}
