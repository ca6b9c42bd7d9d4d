/** Asset rows and the snapshots of their columns that selections, recipes and outputs copy. */
module Assets {
  import opened Basics

  datatype Storage = Storage(
    backend: string, bucket: string, objectKey: string, objectVersionId: string, sha256: string,
    contentType: string, imageFormat: string, width: int, height: int, byteSize: int)

  /** Where an object lies. */
  datatype Object = Object(backend: string, bucket: string, key: string)

  datatype Kind = RawMaster | Derivative | OtherKind

  /**
    `watermark`: the metadata name this purpose.  `stored` is None when object_key is NULL;
    `storage` and `availableAt` are None when one of the copied columns is NULL.
  */
  datatype Asset = Asset(
    release: Id, kind: Kind, available: bool, watermark: bool, stored: Option<Object>, storage: Option<Storage>,
    availableAt: Option<int>)

  type AssetTable = map<Id, Asset>

  function ObjectOf(s: Storage): Object {
    Object(s.backend, s.bucket, s.objectKey)
  }

  // -------------------------------------------------------------------- constraints

  /** SQL `length(trim(s)) = 0`. */
  predicate Blank(s: string) {
    forall c :: c in s ==> c == ' '
  }

  predicate PositiveSizes(s: Storage) {
    s.width > 0 && s.height > 0 && s.byteSize > 0
  }

  /** The CHECK constraints on the copied columns of selections and outputs. */
  predicate CopyChecks(s: Storage) {
    && PositiveSizes(s) && |s.sha256| == 64
    && !Blank(s.backend) && !Blank(s.bucket) && !Blank(s.objectKey) && !Blank(s.objectVersionId)
    && !Blank(s.contentType) && !Blank(s.imageFormat)
  }

  /** The CHECK constraints of assets. */
  predicate AssetChecks(a: Asset) {
    && (a.available ==> a.stored.Some?)
    && (a.storage.Some? ==>
          && a.stored == Some(ObjectOf(a.storage.value))
          && a.storage.value.width > 0 && a.storage.value.height > 0 && a.storage.value.byteSize >= 0)
  }

  /** The unique key of the stored object; rows without an object key do not clash. */
  predicate ObjectFree(assets: AssetTable, id: Id, stored: Option<Object>) {
    stored.Some? ==> forall other :: other in assets && other != id ==> assets[other].stored != stored
  }

  /** What the table demands of an INSERT or UPDATE of the row. */
  predicate AssetAdmitted(assets: AssetTable, id: Id, a: Asset) {
    AssetChecks(a) && ObjectFree(assets, id, a.stored)
  }

  ghost predicate AssetsSound(assets: AssetTable) {
    forall id {:trigger AssetAdmitted(assets, id, assets[id])} :: id in assets ==> AssetAdmitted(assets, id, assets[id])
  }

  lemma PutKeepsSound(assets: AssetTable, id: Id, a: Asset)
    requires AssetsSound(assets) && AssetAdmitted(assets, id, a)
    ensures AssetsSound(assets[id := a])
  {
    var next := assets[id := a];
    forall other | other in next
      ensures AssetAdmitted(next, other, next[other])
    {
      assert other != id ==> AssetAdmitted(assets, other, assets[other]);
    }
  }

  /** The asset is an available one of the release and its columns equal the copy. */
  predicate CopyOf(asset: Asset, release: Id, storage: Storage) {
    asset.release == release && asset.available && asset.storage == Some(storage)
  }

  // -------------------------------------------------------------------- rows a run may write

  /** A text as long as a SHA-256 in hexadecimal. */
  function Digest(c: char): (text: string)
    ensures |text| == 64 && (c != ' ' ==> !Blank(text))
  {
    var text := seq(64, _ => c);
    assert text[0] == c && text[0] in text;
    text
  }

  /** A new object under this key. */
  function StoredUnder(key: string): Storage {
    Storage("s3", "bucket", key, "version", Digest('0'), "image/png", "PNG", 1, 1, 1)
  }

  lemma NewStorageChecks(key: string)
    requires !Blank(key)
    ensures CopyChecks(StoredUnder(key))
  {
    assert 's' in "s3" && 'b' in "bucket" && 'v' in "version" && 'i' in "image/png" && 'P' in "PNG";
  }

  /** The key of an object that neither an asset nor one of these copies names. */
  lemma UnusedKey(assets: AssetTable, copies: set<Storage>) returns (key: string)
    ensures !Blank(key)
    ensures forall id :: id in assets && assets[id].stored.Some? ==> assets[id].stored.value.key != key
    ensures forall s :: s in copies ==> s.objectKey != key
  {
    var lengths: set<Id> := (set id | id in assets && assets[id].stored.Some? :: |assets[id].stored.value.key|)
      + (set s | s in copies :: |s.objectKey|);
    var n := Unused(lengths + {0});
    key := seq(n, _ => 'k');
    assert key[0] == 'k' && key[0] in key;
    forall id | id in assets && assets[id].stored.Some?
      ensures assets[id].stored.value.key != key
    {
      assert |assets[id].stored.value.key| in lengths;
    }
    forall s | s in copies
      ensures s.objectKey != key
    {
      assert |s.objectKey| in lengths;
    }
  }

  /** The row after its object was moved to another key. */
  function Relocated(a: Asset, key: string): Asset
    requires a.stored.Some?
  {
    a.(stored := Some(a.stored.value.(key := key)),
       storage := if a.storage.Some? then Some(a.storage.value.(objectKey := key)) else None)
  }

  lemma RelocationAdmitted(assets: AssetTable, id: Id, key: string)
    requires AssetsSound(assets) && id in assets && assets[id].stored.Some?
    requires forall other :: other in assets && assets[other].stored.Some? ==> assets[other].stored.value.key != key
    ensures AssetAdmitted(assets, id, Relocated(assets[id], key))
  {
    assert AssetAdmitted(assets, id, assets[id]);
  }
}
