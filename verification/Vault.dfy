/** Records of the content-addressed store (`storage/control_store.py`): Files over raw objects,
    and Collections as chains of immutable snapshots with one HEAD each. */
module Vault {
  import opened Common

  datatype Privacy = Public | Internal | Restricted {
    function Rank(): nat {
      match this case Public => 0 case Internal => 1 case Restricted => 2
    }
  }

  datatype FileBasis = FileBasis(objectId: Id, contentSha: Id, size: nat, filename: string, createdAt: string,
      privacy: Privacy)

  datatype FileRecord = FileRecord(id: Id, basis: FileBasis)

  datatype CollectionBasis = CollectionBasis(name: string, createdAt: string, privacy: Privacy)

  datatype Descriptor = Descriptor(id: Id, basis: CollectionBasis)

  datatype SnapshotBasis = SnapshotBasis(collection: Id, revision: int, previous: Option<Id>, createdAt: string,
      members: seq<Id>)

  datatype Snapshot = Snapshot(id: Id, basis: SnapshotBasis)

  /** A snapshot file lives in the directory of its Collection. */
  datatype SnapshotKey = SnapshotKey(collection: Id, snapshot: Id)

  /** The identity functions of the store: SHA-256 of raw bytes and of canonical records. */
  datatype Hashes = Hashes(content: Bytes -> Id, file: FileBasis -> Id, collection: CollectionBasis -> Id,
      snapshot: SnapshotBasis -> Id) {
    ghost predicate Sound() {
      Injective(content) && Injective(file) && Injective(collection) && Injective(snapshot)
    }
  }

  datatype Store = Store(
    objects: map<Id, Bytes>,
    files: map<Id, FileRecord>,
    collections: map<Id, Descriptor>,
    snapshots: map<SnapshotKey, Snapshot>,
    heads: map<Id, Id>)

  const EmptyStore := Store(map[], map[], map[], map[], map[])

  /** `get_file_record` answers: the record is there and its content hashes to its name. */
  predicate HasFile(h: Hashes, v: Store, file: Id) {
    file in v.files && v.files[file].id == file && h.file(v.files[file].basis) == file
  }

  /** `read_file` answers: the object is there with the recorded hash and size. */
  predicate Readable(h: Hashes, v: Store, file: Id) {
    && HasFile(h, v, file)
    && var b := v.files[file].basis;
       b.objectId in v.objects && h.content(v.objects[b.objectId]) == b.contentSha && |v.objects[b.objectId]| == b.size
  }

  /** `get_collection` answers. */
  predicate HasCollection(h: Hashes, v: Store, c: Id) {
    c in v.collections && v.collections[c].id == c && h.collection(v.collections[c].basis) == c && c in v.heads
  }

  /** `get_collection_snapshot` answers for an explicit snapshot. */
  predicate HasSnapshot(h: Hashes, v: Store, c: Id, s: Id) {
    && HasCollection(h, v, c)
    && SnapshotKey(c, s) in v.snapshots
    && var r := v.snapshots[SnapshotKey(c, s)];
       r.id == s && h.snapshot(r.basis) == s && r.basis.collection == c && StrictlyAscending(r.basis.members)
  }

  /** Objects carry their own names, every registered File can be read (objects are written before
      the records naming them) and every stored snapshot lists registered Files. */
  ghost predicate StoreSound(h: Hashes, v: Store) {
    && (forall k :: k in v.objects ==> h.content(v.objects[k]) == k)
    && (forall f :: f in v.files ==> Readable(h, v, f))
    && (forall k, f :: k in v.snapshots && f in v.snapshots[k].basis.members ==> f in v.files)
  }

  /** Records are never rewritten; only Collection HEADs move. */
  ghost predicate Grows(v: Store, v': Store) {
    && (forall k :: k in v.objects ==> k in v'.objects && v'.objects[k] == v.objects[k])
    && (forall k :: k in v.files ==> k in v'.files && v'.files[k] == v.files[k])
    && (forall k :: k in v.collections ==> k in v'.collections && v'.collections[k] == v.collections[k])
    && (forall k :: k in v.snapshots ==> k in v'.snapshots && v'.snapshots[k] == v.snapshots[k])
    && (forall k :: k in v.heads ==> k in v'.heads)
  }
}
