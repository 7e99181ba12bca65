/** The store object (`storage/control_store.py`): Files, Collections, snapshot HEADs and the derived
    lexical index, each directory a map that the methods update one record at a time. */
module ControlStore {
  import opened Common
  import opened Vault
  import Collections
  import LexicalSearch
  import SearchAnswer
  import CollectionConcurrency

  datatype LockName = CreateLock(collection: Id) | HeadLock(collection: Id) | IndexLock(collection: Id)

  datatype Error = LockHeld | Collision | Refused(reason: Collections.Error) | UnreadableFile | BrokenLineage
      | InvalidQuery | UnknownIndex | IndexMismatch

  datatype IndexBasis = IndexBasis(collection: Id, snapshot: Id, privacy: Privacy,
      documents: seq<LexicalSearch.Document>, skipped: seq<Id>)

  datatype IndexRecord = IndexRecord(id: Id, basis: IndexBasis, builtAt: string)

  datatype IndexHead = IndexHead(index: Id, snapshot: Id)

  const MAX_SEARCH_LIMIT := 100

  /** What `verify` establishes of one Collection: its HEAD reaches revision 0 and no snapshot on the
      way holds a File stricter than the Collection. */
  ghost predicate CollectionVerifies(h: Hashes, v: Store, c: Id) {
    && HasCollection(h, v, c)
    && HasSnapshot(h, v, c, v.heads[c])
    && Collections.Current(v, c).basis.revision >= 0
    && ChainVerifies(h, v, c, v.heads[c], Collections.Current(v, c).basis.revision)
  }

  ghost predicate ChainVerifies(h: Hashes, v: Store, c: Id, s: Id, n: int)
    requires c in v.collections
  {
    && n >= 0
    && var chain := Collections.Lineage(h, v.snapshots, c, s, n);
       chain.Some? && Collections.LineageAllowed(h, v, v.collections[c].basis.privacy, chain.value)
  }

  /** One step of the lineage walk. */
  lemma ChainStep(h: Hashes, v: Store, c: Id, s: Id, n: int)
    requires c in v.collections && HasSnapshot(h, v, c, s)
    ensures
      var e := v.snapshots[SnapshotKey(c, s)];
      var allowed := Collections.MembersAllowed(h, v, v.collections[c].basis.privacy, e.basis.members);
      ChainVerifies(h, v, c, s, n) <==>
        e.basis.revision == n && allowed &&
        match e.basis.previous case None => n == 0 case Some(p) => ChainVerifies(h, v, c, p, n - 1)
  {
    var e := v.snapshots[SnapshotKey(c, s)];
    var privacy := v.collections[c].basis.privacy;
    if n > 0 && e.basis.previous.Some? && Collections.Lineage(h, v.snapshots, c, e.basis.previous.value, n - 1).Some? {
      var older := Collections.Lineage(h, v.snapshots, c, e.basis.previous.value, n - 1).value;
      AllowedAppend(h, v, privacy, older, e);
    } else if n == 0 && e.basis.previous.None? && e.basis.revision == 0 {
      AllowedAppend(h, v, privacy, [], e);
      assert [] + [e] == [e];
    }
  }

  lemma AllowedAppend(h: Hashes, v: Store, privacy: Privacy, chain: seq<Snapshot>, e: Snapshot)
    ensures Collections.LineageAllowed(h, v, privacy, chain + [e]) <==>
      Collections.LineageAllowed(h, v, privacy, chain) && Collections.MembersAllowed(h, v, privacy, e.basis.members)
  {
    var all := chain + [e];
    if Collections.LineageAllowed(h, v, privacy, all) {
      forall i | 0 <= i < |chain| ensures Collections.MembersAllowed(h, v, privacy, chain[i].basis.members) {
        assert all[i] == chain[i];
      }
      assert all[|chain|] == e;
    }
  }

  /** A snapshot that cannot be read breaks every lineage through it. */
  lemma UnreadableBreaks(h: Hashes, v: Store, c: Id, s: Id, n: int)
    requires HasCollection(h, v, c) && !HasSnapshot(h, v, c, s)
    ensures !ChainVerifies(h, v, c, s, n)
  {
  }

  /** Meeting a snapshot again at a lower revision than it carries. */
  lemma RevisitBreaks(h: Hashes, v: Store, c: Id, s: Id, n: int)
    requires c in v.collections && SnapshotKey(c, s) in v.snapshots
      && v.snapshots[SnapshotKey(c, s)].basis.revision != n
    ensures !ChainVerifies(h, v, c, s, n)
  {
  }

  /** The lineage walk of `verify`, over any store content, damaged or not. */
  method WalkLineage(h: Hashes, v: Store, c: Id) returns (accepted: bool, walked: nat)
    ensures accepted <==> CollectionVerifies(h, v, c)
    ensures accepted ==> walked == Collections.Current(v, c).basis.revision + 1
  {
    hide ChainVerifies, SeenBudget;
    walked := 0;
    if !HasCollection(h, v, c) || !HasSnapshot(h, v, c, v.heads[c]) {
      return false, walked;
    }
    var privacy := v.collections[c].basis.privacy;
    var cursor := v.heads[c];
    var expected := v.snapshots[SnapshotKey(c, cursor)].basis.revision;
    ghost var top := expected;
    var seen: set<Id> := {};
    while true
      invariant HasSnapshot(h, v, c, cursor)
      invariant ChainVerifies(h, v, c, cursor, expected) <==> ChainVerifies(h, v, c, v.heads[c], top)
      invariant forall s :: s in seen ==>
        SnapshotKey(c, s) in v.snapshots && v.snapshots[SnapshotKey(c, s)].basis.revision > expected
      invariant walked == top - expected
      decreases SeenBudget(v, c, seen)
    {
      if cursor in seen {
        RevisitBreaks(h, v, c, cursor, expected);
        return false, walked;
      }
      var snapshot := v.snapshots[SnapshotKey(c, cursor)];
      ChainStep(h, v, c, cursor, expected);
      SeenGrows(v, c, seen, cursor);
      seen := seen + {cursor};
      if snapshot.basis.revision != expected {
        return false, walked;
      }
      for i := 0 to |snapshot.basis.members|
        invariant forall j :: 0 <= j < i ==>
          HasFile(h, v, snapshot.basis.members[j])
            && v.files[snapshot.basis.members[j]].basis.privacy.Rank() <= privacy.Rank()
      {
        var member := snapshot.basis.members[i];
        if !HasFile(h, v, member) || v.files[member].basis.privacy.Rank() > privacy.Rank() {
          return false, walked;
        }
      }
      walked := walked + 1;
      if snapshot.basis.previous.None? {
        return snapshot.basis.revision == 0, walked;
      }
      expected := expected - 1;
      if !HasSnapshot(h, v, c, snapshot.basis.previous.value) {
        UnreadableBreaks(h, v, c, snapshot.basis.previous.value, expected);
        return false, walked;
      }
      cursor := snapshot.basis.previous.value;
    }
  }

  ghost function SeenBudget(v: Store, c: Id, seen: set<Id>): nat {
    |v.snapshots.Keys - (set s | s in seen :: SnapshotKey(c, s))|
  }

  lemma SeenGrows(v: Store, c: Id, seen: set<Id>, cursor: Id)
    requires SnapshotKey(c, cursor) in v.snapshots && cursor !in seen
    ensures SeenBudget(v, c, seen + {cursor}) < SeenBudget(v, c, seen)
  {
    var a, b := set s | s in seen :: SnapshotKey(c, s), set s | s in seen + {cursor} :: SnapshotKey(c, s);
    assert b == a + {SnapshotKey(c, cursor)};
    assert v.snapshots.Keys - b == (v.snapshots.Keys - a) - {SnapshotKey(c, cursor)};
  }

  /** `verify` on what the operations can produce: only a Collection without HEAD is refused. */
  lemma ReachableVerifies(h: Hashes, v: Store, c: Id)
    requires Collections.CollectionsInv(h, v) && c in v.collections
    ensures CollectionVerifies(h, v, c) <==> c in v.heads
  {
    if c in v.heads {
      assert Collections.HeadSound(h, v, v.snapshots, c, v.heads[c]);
    }
  }

  /** The index stored under a name is the one its snapshot determines. */
  ghost predicate IndexSound(h: Hashes, v: Store, x: LexicalSearch.Texts, indexHash: IndexBasis -> Id, id: Id,
      r: IndexRecord) {
    && r.id == id && indexHash(r.basis) == id
    && SnapshotKey(r.basis.collection, r.basis.snapshot) in v.snapshots
    && r.basis.documents == LexicalSearch.Documents(h, v, x,
      v.snapshots[SnapshotKey(r.basis.collection, r.basis.snapshot)].basis.members)
  }

  lemma IndexSoundGrows(h: Hashes, v: Store, v': Store, x: LexicalSearch.Texts, indexHash: IndexBasis -> Id, id: Id,
      r: IndexRecord)
    requires StoreSound(h, v) && Grows(v, v') && IndexSound(h, v, x, indexHash, id, r)
    ensures IndexSound(h, v', x, indexHash, id, r)
  {
    var members := v.snapshots[SnapshotKey(r.basis.collection, r.basis.snapshot)].basis.members;
    LexicalSearch.DocumentsGrow(h, v, v', x, members);
  }

  function WithFile(h: Hashes, v: Store, content: Bytes, r: FileRecord): Store {
    v.(objects := v.objects[h.content(content) := content], files := v.files[r.id := r])
  }

  lemma FileIsGrowth(h: Hashes, v: Store, content: Bytes, r: FileRecord)
    requires h.Sound() && StoreSound(h, v)
    requires r.id == h.file(r.basis) && r.basis.objectId == r.basis.contentSha == h.content(content)
      && r.basis.size == |content|
    ensures Grows(v, WithFile(h, v, content, r)) && StoreSound(h, WithFile(h, v, content, r))
    ensures h.content(content) in v.objects ==> v.objects[h.content(content)] == content
    ensures r.id in v.files ==> v.files[r.id] == r
  {
    var v' := WithFile(h, v, content, r);
    if r.id in v.files { assert Readable(h, v, r.id); }
    forall f | f in v'.files ensures Readable(h, v', f) {
      if f in v.files { assert Readable(h, v, f); }
    }
  }

  /** Storing a File is pure growth. */
  lemma StoringFile(h: Hashes, v: Store, content: Bytes, r: FileRecord)
    requires h.Sound() && Collections.CollectionsInv(h, v)
    requires r.id == h.file(r.basis) && r.basis.objectId == r.basis.contentSha == h.content(content)
      && r.basis.size == |content|
    ensures Grows(v, WithFile(h, v, content, r)) && Collections.CollectionsInv(h, WithFile(h, v, content, r))
    ensures h.content(content) in v.objects ==> v.objects[h.content(content)] == content
    ensures r.id in v.files ==> v.files[r.id] == r
  {
    hide Collections.HeadSound, Collections.RecordSound, Collections.Rooted, StoreSound, Grows;
    var v' := WithFile(h, v, content, r);
    FileIsGrowth(h, v, content, r);
    forall c | c in v'.heads ensures Collections.HeadSound(h, v', v'.snapshots, c, v'.heads[c]) {
      Collections.HeadSoundGrows(h, v, v', v.snapshots, v'.snapshots, c, v.heads[c]);
    }
  }

  lemma StoringIndexes(h: Hashes, v: Store, x: LexicalSearch.Texts, indexHash: IndexBasis -> Id,
      indexes: map<Id, IndexRecord>, v': Store)
    requires Collections.CollectionsInv(h, v) && Grows(v, v')
    requires forall k :: k in indexes ==> IndexSound(h, v, x, indexHash, k, indexes[k])
    ensures forall k :: k in indexes ==> IndexSound(h, v', x, indexHash, k, indexes[k])
  {
    forall k | k in indexes ensures IndexSound(h, v', x, indexHash, k, indexes[k]) {
      IndexSoundGrows(h, v, v', x, indexHash, k, indexes[k]);
    }
  }

  /** Carrying out a good plan keeps the Collections sound and the indexes true. */
  lemma PlannedGrowth(h: Hashes, v: Store, x: LexicalSearch.Texts, indexHash: IndexBasis -> Id,
      indexes: map<Id, IndexRecord>,
                      lock: CollectionConcurrency.Lock, todo: seq<Collections.Write>)
    requires h.Sound() && Collections.CollectionsInv(h, v) && CollectionConcurrency.GoodPlan(h, v, lock, todo)
    requires forall k :: k in indexes ==> IndexSound(h, v, x, indexHash, k, indexes[k])
    ensures Collections.CollectionsInv(h, Collections.ApplyAll(v, todo)) && Grows(v, Collections.ApplyAll(v, todo))
    ensures forall k :: k in indexes ==> IndexSound(h, Collections.ApplyAll(v, todo), x, indexHash, k, indexes[k])
  {
    hide CollectionConcurrency.GoodPlan, IndexSound, Grows, Collections.CollectionsInv;
    CollectionConcurrency.PlanKeepsInv(h, v, lock, todo);
    StoringIndexes(h, v, x, indexHash, indexes, Collections.ApplyAll(v, todo));
  }

  lemma FinishPlan(v: Store, todo: seq<Collections.Write>)
    requires todo != [] && todo[|todo| - 1].MoveHead?
    ensures Collections.ApplyAll(v, todo) == Collections.Apply(CollectionConcurrency.Ready(v, todo), todo[|todo| - 1])
  {
    ApplyLast(v, todo[..|todo| - 1], todo[|todo| - 1]);
    assert todo[..|todo| - 1] + [todo[|todo| - 1]] == todo;
  }

  lemma {:induction false} ApplyLast(v: Store, ws: seq<Collections.Write>, w: Collections.Write)
    ensures Collections.ApplyAll(v, ws + [w]) == Collections.Apply(Collections.ApplyAll(v, ws), w)
    decreases |ws|
  {
    if ws == [] {
      assert Collections.ApplyAll(v, [w]) == Collections.ApplyAll(Collections.Apply(v, w), []);
      assert ws + [w] == [w];
    } else {
      assert (ws + [w])[1..] == ws[1..] + [w];
      ApplyLast(Collections.Apply(v, ws[0]), ws[1..], w);
    }
  }

  lemma CreateEffect(h: Hashes, v: Store, basis: CollectionBasis)
    requires h.Sound() && Collections.CollectionsInv(h, v) && Collections.PlanCreate(h, v, basis).Ok?
    ensures
      var d := Descriptor(h.collection(basis), basis);
      var first := Collections.FirstSnapshot(h, d);
      Collections.ApplyAll(v, Collections.PlanCreate(h, v, basis).value) ==
        if d.id in v.collections then v
        else v.(collections := v.collections[d.id := d], snapshots := v.snapshots[SnapshotKey(d.id, first.id) := first],
          heads := v.heads[d.id := first.id])
  {
    var d := Descriptor(h.collection(basis), basis);
    var todo := Collections.PlanCreate(h, v, basis).value;
    if d.id !in v.collections {
      CollectionConcurrency.CreateReady(h, v, d, Collections.FirstSnapshot(h, d), todo);
      FinishPlan(v, todo);
    }
  }

  lemma UpdateEffect(h: Hashes, v: Store, q: CollectionConcurrency.Request)
    requires h.Sound() && Collections.CollectionsInv(h, v) && CollectionConcurrency.PlanRequest(h, v, q).Ok?
    ensures HasCollection(h, v, q.collection) && HasSnapshot(h, v, q.collection, v.heads[q.collection])
    ensures
      var next := Collections.Proposed(h, v, q.collection, q.add, q.remove).value;
      var s := Collections.NextSnapshot(h, v, q.collection, next, q.createdAt);
      Collections.ApplyAll(v, CollectionConcurrency.PlanRequest(h, v, q).value) ==
        if next == Collections.Current(v, q.collection).basis.members then v
        else v.(snapshots := v.snapshots[SnapshotKey(q.collection, s.id) := s], heads := v.heads[q.collection := s.id])
  {
    var todo := CollectionConcurrency.PlanRequest(h, v, q).value;
    if todo != [] {
      var next := Collections.Proposed(h, v, q.collection, q.add, q.remove).value;
      CollectionConcurrency.UpdateReady(h, v, q.collection,
        Collections.NextSnapshot(h, v, q.collection, next, q.createdAt), todo);
      FinishPlan(v, todo);
    }
  }

  /** What a creation leaves behind: a known Collection as it was, a new one at its first snapshot. */
  ghost predicate Created(h: Hashes, v: Store, basis: CollectionBasis, head: Id, v': Store) {
    var c := h.collection(basis);
    if c in v.heads then v' == v && head == v.heads[c]
    else
      var first := Snapshot(head, SnapshotBasis(c, 0, None, basis.createdAt, []));
      && head == h.snapshot(first.basis)
      && v' == v.(collections := v.collections[c := Descriptor(c, basis)],
                  snapshots := v.snapshots[SnapshotKey(c, head) := first], heads := v.heads[c := head])
  }

  lemma CreateDone(h: Hashes, v: Store, basis: CollectionBasis)
    requires h.Sound() && Collections.CollectionsInv(h, v)
    ensures
      var c := h.collection(basis);
      Collections.PlanCreate(h, v, basis).Ok? <==> (c in v.collections ==> c in v.heads)
    ensures Collections.PlanCreate(h, v, basis).Ok? ==>
      var c, v' := h.collection(basis), Collections.ApplyAll(v, Collections.PlanCreate(h, v, basis).value);
      c in v'.heads && Created(h, v, basis, v'.heads[c], v')
  {
    hide Collections.Rooted, Collections.Lineage, Collections.LineageAllowed, StoreSound, Collections.ApplyAll;
    var d := Descriptor(h.collection(basis), basis);
    var first := Collections.FirstSnapshot(h, d);
    var key := SnapshotKey(d.id, first.id);
    if d.id in v.heads { assert Collections.HeadSound(h, v, v.snapshots, d.id, v.heads[d.id]); }
    if key in v.snapshots {
      assert h.snapshot(v.snapshots[key].basis) == h.snapshot(first.basis);
    }
    if Collections.PlanCreate(h, v, basis).Ok? { CreateEffect(h, v, basis); }
  }

  lemma UpdatableIsReadable(h: Hashes, v: Store, c: Id, add: set<Id>, remove: set<Id>)
    requires Collections.MayUpdate(h, v, c, add, remove)
    ensures HasCollection(h, v, c) && HasSnapshot(h, v, c, v.heads[c])
  {
  }

  /** What an update that is not refused leaves behind. */
  lemma UpdateDone(h: Hashes, v: Store, q: CollectionConcurrency.Request)
    requires h.Sound() && Collections.CollectionsInv(h, v)
    ensures Collections.MayUpdate(h, v, q.collection, q.add, q.remove) ==> q.collection in v.heads
    ensures CollectionConcurrency.PlanRequest(h, v, q).Ok? <==>
      && Collections.MayUpdate(h, v, q.collection, q.add, q.remove)
      && (q.expected.Some? ==> v.heads[q.collection] == q.expected.value)
    ensures CollectionConcurrency.PlanRequest(h, v, q).Ok? ==>
      var c, v' := q.collection, Collections.ApplyAll(v, CollectionConcurrency.PlanRequest(h, v, q).value);
      && c in v'.heads && SnapshotKey(c, v'.heads[c]) in v'.snapshots
      && SnapshotKey(c, v.heads[c]) in v.snapshots
      && var s := Collections.Current(v', c);
         && Collections.ListsUpdate(Collections.Current(v, c).basis.members, q.add, q.remove, s.basis.members)
         && Collections.Updates(h, v, c, q.createdAt, s)
         && v' == v.(snapshots := v.snapshots[SnapshotKey(c, s.id) := s], heads := v.heads[c := s.id])
  {
    hide Collections.CollectionsInv, Collections.ListsUpdate, Collections.MayUpdate, Collections.Proposed;
    hide Collections.ApplyAll;
    Collections.UpdateAcceptedIff(h, v, q.collection, q.add, q.remove, q.expected, q.createdAt);
    if CollectionConcurrency.PlanRequest(h, v, q).Ok? {
      Collections.ProposedMeans(h, v, q.collection, q.add, q.remove);
      UpdateEffect(h, v, q);
    }
  }

  lemma CreatePlanned(h: Hashes, v: Store, x: LexicalSearch.Texts, indexHash: IndexBasis -> Id,
      indexes: map<Id, IndexRecord>, basis: CollectionBasis)
    requires h.Sound() && Collections.CollectionsInv(h, v) && Collections.PlanCreate(h, v, basis).Ok?
    requires forall k :: k in indexes ==> IndexSound(h, v, x, indexHash, k, indexes[k])
    ensures
      var v' := Collections.ApplyAll(v, Collections.PlanCreate(h, v, basis).value);
      && Collections.CollectionsInv(h, v') && Grows(v, v') && forall k :: k in indexes ==>
        IndexSound(h, v', x, indexHash, k, indexes[k])
  {
    hide Collections.CollectionsInv, IndexSound, Grows, Collections.PlanCreate;
    CollectionConcurrency.CreatePlansWell(h, v, basis);
    PlannedGrowth(h, v, x, indexHash, indexes, CollectionConcurrency.Creating(h.collection(basis)),
      Collections.PlanCreate(h, v, basis).value);
  }

  lemma UpdatePlanned(h: Hashes, v: Store, x: LexicalSearch.Texts, indexHash: IndexBasis -> Id,
      indexes: map<Id, IndexRecord>, q: CollectionConcurrency.Request)
    requires h.Sound() && Collections.CollectionsInv(h, v) && CollectionConcurrency.PlanRequest(h, v, q).Ok?
    requires forall k :: k in indexes ==> IndexSound(h, v, x, indexHash, k, indexes[k])
    ensures
      var v' := Collections.ApplyAll(v, CollectionConcurrency.PlanRequest(h, v, q).value);
      && Collections.CollectionsInv(h, v') && Grows(v, v') && forall k :: k in indexes ==>
        IndexSound(h, v', x, indexHash, k, indexes[k])
  {
    hide Collections.CollectionsInv, IndexSound, Grows, CollectionConcurrency.PlanRequest;
    CollectionConcurrency.UpdatePlansWell(h, v, q);
    PlannedGrowth(h, v, x, indexHash, indexes, CollectionConcurrency.Heading(q.collection),
      CollectionConcurrency.PlanRequest(h, v, q).value);
  }

  /** Whatever a stored snapshot lists can be read. */
  lemma MembersReadable(h: Hashes, v: Store, key: SnapshotKey)
    requires Collections.CollectionsInv(h, v) && key in v.snapshots
    ensures forall f :: f in v.snapshots[key].basis.members ==> Readable(h, v, f)
  {
    hide Readable;
    var members := v.snapshots[key].basis.members;
    forall f | f in members ensures Readable(h, v, f) {
      var i :| 0 <= i < |members| && members[i] == f;
      assert f in v.files;
    }
  }

  lemma ReadableStored(h: Hashes, v: Store, file: Id)
    ensures Readable(h, v, file) ==> file in v.files && v.files[file].basis.objectId in v.objects
  {
  }

  class ControlStore {
    const h: Hashes
    const x: LexicalSearch.Texts
    const indexHash: IndexBasis -> Id

    var objects: map<Id, Bytes>
    var files: map<Id, FileRecord>
    var collections: map<Id, Descriptor>
    var snapshots: map<SnapshotKey, Snapshot>
    var heads: map<Id, Id>
    var indexes: map<Id, IndexRecord>
    var indexHeads: map<Id, IndexHead>
    var locks: set<LockName>

    /** The canonical records; indexes are derived and excluded. */
    function Contents(): Store
      reads this
    {
      Store(objects, files, collections, snapshots, heads)
    }

    ghost predicate IndexesSound()
      reads this
    {
      && (forall k :: k in indexes ==> IndexSound(h, Contents(), x, indexHash, k, indexes[k]))
      && (forall c :: c in indexHeads ==>
            && indexHeads[c].index in indexes
            && indexes[indexHeads[c].index].basis.collection == c
            && indexes[indexHeads[c].index].basis.snapshot == indexHeads[c].snapshot)
    }

    ghost predicate Valid()
      reads this
    {
      h.Sound() && Injective(indexHash) && Collections.CollectionsInv(h, Contents()) && IndexesSound()
    }

    constructor (h: Hashes, x: LexicalSearch.Texts, indexHash: IndexBasis -> Id)
      requires h.Sound() && Injective(indexHash)
      ensures Valid() && Contents() == EmptyStore && locks == {} && indexes == map[] && indexHeads == map[]
      ensures this.h == h && this.x == x && this.indexHash == indexHash
    {
      this.h, this.x, this.indexHash := h, x, indexHash;
      objects, files, collections, snapshots, heads := map[], map[], map[], map[], map[];
      indexes, indexHeads, locks := map[], map[], {};
    }

    /** `put_file`: object first, then the record that names it.  By content addressing neither write
        can meet a different record. */
    method PutFile(content: Bytes, filename: string, createdAt: string, privacy: Privacy)
        returns (r: Result<FileRecord, Error>)
      requires Valid()
      modifies this`objects, this`files
      ensures Valid() && Grows(old(Contents()), Contents())
      ensures r.Ok? && r.value.basis == FileBasis(h.content(content), h.content(content), |content|, filename,
        createdAt, privacy)
      ensures r.value.id == h.file(r.value.basis) && Readable(h, Contents(), r.value.id)
      ensures objects == old(objects)[h.content(content) := content] && files == old(files)[r.value.id := r.value]
    {
      hide Collections.CollectionsInv, IndexSound, Grows;
      var objectId := h.content(content);
      var basis := FileBasis(objectId, objectId, |content|, filename, createdAt, privacy);
      var record := FileRecord(h.file(basis), basis);
      StoringFile(h, Contents(), content, record);
      StoringIndexes(h, Contents(), x, indexHash, indexes, WithFile(h, Contents(), content, record));
      if objectId in objects {
        if objects[objectId] != content {
          assert false;
        }
      } else {
        objects := objects[objectId := content];
      }
      if record.id in files && files[record.id] != record {
        assert false;
      }
      if record.id !in files {
        files := files[record.id := record];
      }
      assert Contents() == WithFile(h, old(Contents()), content, record);
      r := Ok(record);
    }

    /** `create_collection`: a new Collection starts at an empty snapshot of revision 0; a known one keeps its
        HEAD, and without one it is refused. */
    method CreateCollection(basis: CollectionBasis) returns (r: Result<Id, Error>)
      requires Valid()
      modifies this`collections, this`snapshots, this`heads, this`locks
      ensures Valid() && locks == old(locks) && Grows(old(Contents()), Contents())
      ensures
        var c := h.collection(basis);
        r.Ok? <==> CreateLock(c) !in old(locks) && (c in old(collections) ==> c in old(heads))
      ensures r.Ok? ==> Created(h, old(Contents()), basis, r.value, Contents())
      ensures
        var c := h.collection(basis);
        var plan := Collections.PlanCreate(h, old(Contents()), basis);
        if CreateLock(c) in old(locks) then r == Err(LockHeld) && Contents() == old(Contents())
        else if plan.Err? then r == Err(Refused(plan.error)) && Contents() == old(Contents())
        else Contents() == Collections.ApplyAll(old(Contents()), plan.value) && c in heads && r == Ok(heads[c])
    {
      hide Collections.CollectionsInv, IndexSound, Grows, Collections.PlanCreate, Collections.ApplyAll, Created;
      ghost var before := Contents();
      CreateDone(h, before, basis);
      CollectionConcurrency.GrowsReflexive(before);
      if Collections.PlanCreate(h, before, basis).Ok? {
        CreatePlanned(h, before, x, indexHash, indexes, basis);
      }
      var c := h.collection(basis);
      if CreateLock(c) in locks {
        return Err(LockHeld);
      }
      locks := locks + {CreateLock(c)};
      r := InstallCollection(basis);
      locks := locks - {CreateLock(c)};
    }

    /** The body of a creation under the lock. */
    method InstallCollection(basis: CollectionBasis) returns (r: Result<Id, Error>)
      requires h.Sound() && Collections.CollectionsInv(h, Contents())
      modifies this`collections, this`snapshots, this`heads
      ensures
        var c := h.collection(basis);
        var plan := Collections.PlanCreate(h, old(Contents()), basis);
        if plan.Err? then r == Err(Refused(plan.error)) && Contents() == old(Contents())
        else Contents() == Collections.ApplyAll(old(Contents()), plan.value) && c in heads && r == Ok(heads[c])
    {
      hide Collections.CollectionsInv;
      if Collections.PlanCreate(h, Contents(), basis).Ok? { CreateEffect(h, Contents(), basis); }
      var c := h.collection(basis);
      var descriptor := Descriptor(c, basis);
      if c in collections {
        if collections[c] != descriptor {
          return Err(Refused(Collections.Collision));
        }
        if c !in heads {
          return Err(Refused(Collections.UnknownSnapshot));
        }
        return Ok(heads[c]);
      }
      var first := Collections.FirstSnapshot(h, descriptor);
      var key := SnapshotKey(c, first.id);
      if key in snapshots && snapshots[key] != first {
        return Err(Refused(Collections.Collision));
      }
      collections := collections[c := descriptor];
      if key !in snapshots {
        snapshots := snapshots[key := first];
      }
      heads := heads[c := first.id];
      r := Ok(first.id);
    }

    /** `update_collection`: refuse a bad request or a stale expectation, write nothing when nothing changes,
        otherwise the successor snapshot with the members asked for, and then HEAD. */
    method UpdateCollection(q: CollectionConcurrency.Request) returns (r: Result<Snapshot, Error>)
      requires Valid()
      modifies this`snapshots, this`heads, this`locks
      ensures Valid() && locks == old(locks) && Grows(old(Contents()), Contents())
      ensures r.Ok? <==>
        && HeadLock(q.collection) !in old(locks)
        && Collections.MayUpdate(h, old(Contents()), q.collection, q.add, q.remove)
        && (q.expected.Some? ==> old(heads)[q.collection] == q.expected.value)
      ensures r.Ok? ==>
        var before, c := old(Contents()), q.collection;
        && Collections.ListsUpdate(Collections.Current(before, c).basis.members, q.add, q.remove, r.value.basis.members)
        && Collections.Updates(h, before, c, q.createdAt, r.value)
        && snapshots == old(snapshots)[SnapshotKey(c, r.value.id) := r.value] && heads == old(heads)[c := r.value.id]
      ensures
        var plan := CollectionConcurrency.PlanRequest(h, old(Contents()), q);
        if HeadLock(q.collection) in old(locks) then r == Err(LockHeld) && Contents() == old(Contents())
        else if plan.Err? then r == Err(Refused(plan.error)) && Contents() == old(Contents())
        else Contents() == Collections.ApplyAll(old(Contents()), plan.value)
    {
      hide Collections.CollectionsInv, IndexSound, Grows, CollectionConcurrency.PlanRequest, Collections.ApplyAll;
      hide Collections.ListsUpdate, Collections.MayUpdate, Collections.Updates;
      ghost var before := Contents();
      var c := q.collection;
      UpdateDone(h, before, q);
      CollectionConcurrency.GrowsReflexive(before);
      if CollectionConcurrency.PlanRequest(h, before, q).Ok? {
        UpdatePlanned(h, before, x, indexHash, indexes, q);
      }
      if HeadLock(c) in locks {
        return Err(LockHeld);
      }
      locks := locks + {HeadLock(c)};
      r := MoveHead(q);
      locks := locks - {HeadLock(c)};
    }

    /** `_proposed_collection_update`: the next members, once every one of them has been looked up. */
    method ProposedUpdate(c: Id, add: set<Id>, remove: set<Id>) returns (r: Result<seq<Id>, Collections.Error>)
      ensures r.Ok? <==> Collections.MayUpdate(h, Contents(), c, add, remove)
      ensures r.Ok? ==>
        && c in heads && SnapshotKey(c, heads[c]) in snapshots
        && Collections.ListsUpdate(Collections.Current(Contents(), c).basis.members, add, remove, r.value)
      ensures r == Collections.Proposed(h, Contents(), c, add, remove)
    {
      hide Collections.MayUpdate, Collections.ListsUpdate;
      Collections.ProposedMeans(h, Contents(), c, add, remove);
      if !HasCollection(h, Contents(), c) {
        return Err(Collections.UnknownCollection);
      }
      if !HasSnapshot(h, Contents(), c, heads[c]) {
        return Err(Collections.UnknownSnapshot);
      }
      var members := Collections.SetOf(snapshots[SnapshotKey(c, heads[c])].basis.members);
      if add * remove != {} {
        return Err(Collections.AddAndRemove);
      }
      if remove - members != {} {
        return Err(Collections.NotMember);
      }
      members := members + add;
      members := members - remove;
      var next := Collections.Ascending(members);
      var privacy := collections[c].basis.privacy;
      for i := 0 to |next|
        invariant Collections.MemberObjection(h, Contents(), privacy, next)
               == Collections.MemberObjection(h, Contents(), privacy, next[i..])
      {
        assert next[i..][1..] == next[i + 1..];
        if !HasFile(h, Contents(), next[i]) {
          return Err(Collections.UnknownFile);
        }
        if files[next[i]].basis.privacy.Rank() > privacy.Rank() {
          return Err(Collections.StricterFile);
        }
      }
      r := Ok(next);
    }

    /** The body of an update under the lock. */
    method MoveHead(q: CollectionConcurrency.Request) returns (r: Result<Snapshot, Error>)
      requires h.Sound() && Collections.CollectionsInv(h, Contents())
      modifies this`snapshots, this`heads
      ensures
        var plan := CollectionConcurrency.PlanRequest(h, old(Contents()), q);
        if plan.Err? then r == Err(Refused(plan.error)) && Contents() == old(Contents())
        else
          && Contents() == Collections.ApplyAll(old(Contents()), plan.value)
          && q.collection in heads && SnapshotKey(q.collection, heads[q.collection]) in snapshots
          && r == Ok(Collections.Current(Contents(), q.collection))
    {
      hide Collections.CollectionsInv;
      ghost var before := Contents();
      var c := q.collection;
      hide Collections.Proposed;
      if CollectionConcurrency.PlanRequest(h, before, q).Ok? { UpdateEffect(h, before, q); }
      var proposed := ProposedUpdate(c, q.add, q.remove);
      if proposed.Err? {
        return Err(Refused(proposed.error));
      }
      var current := snapshots[SnapshotKey(c, heads[c])];
      if q.expected.Some? && current.id != q.expected.value {
        return Err(Refused(Collections.StaleHead));
      }
      if proposed.value == current.basis.members {
        return Ok(current);
      }
      var next := Collections.NextSnapshot(h, Contents(), c, proposed.value, q.createdAt);
      var key := SnapshotKey(c, next.id);
      if key in snapshots && snapshots[key] != next {
        return Err(Refused(Collections.Collision));
      }
      if key !in snapshots {
        snapshots := snapshots[key := next];
      }
      heads := heads[c := next.id];
      r := Ok(next);
    }

    /** `preview_collection_update`: reads only, and foretells what the update will do, whatever its time stamp. */
    method PreviewCollectionUpdate(c: Id, add: set<Id>, remove: set<Id>)
        returns (r: Result<Collections.PreviewReport, Collections.Error>)
      requires Valid()
      ensures r.Ok? <==> Collections.MayUpdate(h, Contents(), c, add, remove)
      ensures r.Ok? ==>
        var now := Collections.Current(Contents(), c);
        && Collections.ListsUpdate(now.basis.members, add, remove, r.value.members)
        && r.value.head == heads[c] && r.value.revision == now.basis.revision
        && (r.value.changed <==> r.value.members != now.basis.members)
      ensures forall createdAt :: Collections.Foretells(Contents(), c,
        Collections.PlanUpdate(h, Contents(), c, add, remove, None, createdAt), r)
    {
      hide Collections.CollectionsInv, Collections.PlanUpdate, Collections.Foretells;
      hide Collections.MayUpdate, Collections.ListsUpdate;
      if Collections.MayUpdate(h, Contents(), c, add, remove) { UpdatableIsReadable(h, Contents(), c, add, remove); }
      forall createdAt
        ensures Collections.Foretells(Contents(), c,
          Collections.PlanUpdate(h, Contents(), c, add, remove, None, createdAt),
          Collections.Preview(h, Contents(), c, add, remove))
      {
        Collections.PreviewPredictsUpdate(h, Contents(), c, add, remove, createdAt);
      }
      var proposed := ProposedUpdate(c, add, remove);
      if proposed.Err? {
        return Err(proposed.error);
      }
      var current := snapshots[SnapshotKey(c, heads[c])];
      var changed := proposed.value != current.basis.members;
      r := Ok(Collections.PreviewReport(current.id, current.basis.revision,
        if changed then current.basis.revision + 1 else current.basis.revision, changed, proposed.value));
    }

    /** The documents of a snapshot, member by member; members that are not UTF-8 text are skipped, and
        one that cannot be read ends the build. */
    method CollectDocuments(members: seq<Id>) returns (r: Result<(seq<LexicalSearch.Document>, seq<Id>), Error>)
      ensures r.Ok? <==> forall f :: f in members ==> Readable(h, Contents(), f)
      ensures r.Ok? ==>
        && r.value.0 == LexicalSearch.Documents(h, Contents(), x, members)
        && r.value.1 == LexicalSearch.Skipped(h, Contents(), x, members)
    {
      hide LexicalSearch.Documents, LexicalSearch.Skipped, LexicalSearch.TermCounts;
      hide Readable, Collections.CollectionsInv;
      var documents: seq<LexicalSearch.Document>, skipped: seq<Id> := [], [];
      LexicalSearch.NoDocuments(h, Contents(), x, members);
      for i := 0 to |members|
        invariant forall j :: 0 <= j < i ==> Readable(h, Contents(), members[j])
        invariant documents + LexicalSearch.Documents(h, Contents(), x, members[i..]) ==
          LexicalSearch.Documents(h, Contents(), x, members)
        invariant skipped + LexicalSearch.Skipped(h, Contents(), x, members[i..]) ==
          LexicalSearch.Skipped(h, Contents(), x, members)
      {
        var file := members[i];
        if !Readable(h, Contents(), file) {
          return Err(UnreadableFile);
        }
        LexicalSearch.DocumentsStep(h, Contents(), x, members, i, documents);
        LexicalSearch.SkippedStep(h, Contents(), x, members, i, skipped);
        ReadableStored(h, Contents(), file);
        assert documents + [] == documents && skipped + [] == skipped;
        var text := x.decode(objects[files[file].basis.objectId]);
        if text.None? {
          skipped := skipped + [file];
        } else {
          var tokens := LexicalSearch.Tokenize(x.normalize(text.value), x.isToken);
          documents := documents + [LexicalSearch.Document(file, LexicalSearch.TermCounts(tokens))];
        }
      }
      assert documents + [] == documents && skipped + [] == skipped;
      r := Ok((documents, skipped));
    }

    /** The index a build writes for the current snapshot. */
    function CurrentBasis(c: Id): IndexBasis
      requires CurrentReadable(c)
      reads this
    {
      var members := snapshots[SnapshotKey(c, heads[c])].basis.members;
      IndexBasis(c, heads[c], collections[c].basis.privacy, LexicalSearch.Documents(h, Contents(), x, members),
        LexicalSearch.Skipped(h, Contents(), x, members))
    }

    /** `_write_index`: an index already stored under the same identity is kept, whatever its `builtAt`. */
    method WriteIndex(c: Id, record: IndexRecord) returns (r: Result<IndexRecord, Error>)
      requires Valid() && CurrentReadable(c)
      requires record.basis == CurrentBasis(c) && record.id == indexHash(record.basis)
      modifies this`indexes, this`indexHeads, this`locks
      ensures Valid() && locks == old(locks) && Contents() == old(Contents())
      ensures r.Ok? <==> IndexLock(c) !in locks
      ensures r.Err? ==> indexes == old(indexes) && indexHeads == old(indexHeads)
      ensures r.Ok? ==>
        && r.value.basis == record.basis && r.value.id == record.id
        && r.value == (if record.id in old(indexes) then old(indexes)[record.id] else record)
        && indexes == old(indexes)[r.value.id := r.value]
        && indexHeads == old(indexHeads)[c := IndexHead(r.value.id, heads[c])]
    {
      hide Collections.CollectionsInv, LexicalSearch.Documents, LexicalSearch.Skipped, HasCollection, HasSnapshot;
      if IndexLock(c) in locks {
        return Err(LockHeld);
      }
      var kept := record;
      locks := locks + {IndexLock(c)};
      if record.id in indexes {
        kept := indexes[record.id];
        assert IndexSound(h, Contents(), x, indexHash, record.id, kept);
        if kept.basis != record.basis {
          assert false;
        }
      } else {
        indexes := indexes[record.id := record];
      }
      indexHeads := indexHeads[c := IndexHead(kept.id, heads[c])];
      locks := locks - {IndexLock(c)};
      r := Ok(kept);
    }

    /** `build_lexical_index`: the index its snapshot determines, built afresh or already stored: a document for
        each member that holds text, and the others as skipped. */
    method BuildLexicalIndex(c: Id, builtAt: string) returns (r: Result<IndexRecord, Error>)
      requires Valid()
      modifies this`indexes, this`indexHeads, this`locks
      ensures Valid() && locks == old(locks) && Contents() == old(Contents())
      ensures r.Ok? <==> CurrentReadable(c) && IndexLock(c) !in locks
      ensures r.Err? ==> indexes == old(indexes) && indexHeads == old(indexHeads)
      ensures r.Ok? ==>
        && var b, members := r.value.basis, snapshots[SnapshotKey(c, heads[c])].basis.members;
           && b.collection == c && b.snapshot == heads[c] && b.privacy == collections[c].basis.privacy
           && SearchAnswer.DocumentsOf(Contents(), x, members, b.documents)
           && forall f :: f in b.skipped <==> f in members && SearchAnswer.TextOf(Contents(), x, f).None?
      ensures r.Ok? ==>
        && r.value.basis == CurrentBasis(c) && r.value.id == indexHash(r.value.basis)
        && (if r.value.id in old(indexes) then r.value == old(indexes)[r.value.id] else r.value.builtAt == builtAt)
        && indexes == old(indexes)[r.value.id := r.value]
        && indexHeads == old(indexHeads)[c := IndexHead(r.value.id, heads[c])]
    {
      hide Collections.CollectionsInv, LexicalSearch.Documents, LexicalSearch.Skipped, HasCollection;
      hide SearchAnswer.DocumentsOf, SearchAnswer.TextOf;
      if !CurrentReadable(c) {
        return Err(Refused(Collections.UnknownCollection));
      }
      var snapshot := snapshots[SnapshotKey(c, heads[c])];
      MembersReadable(h, Contents(), SnapshotKey(c, heads[c]));
      SearchAnswer.DocumentsAre(h, Contents(), x, snapshot.basis.members);
      SearchAnswer.SkippedAre(h, Contents(), x, snapshot.basis.members);
      var collected := CollectDocuments(snapshot.basis.members);
      if collected.Err? {
        assert false;
      }
      var basis := IndexBasis(c, heads[c], collections[c].basis.privacy, collected.value.0, collected.value.1);
      r := WriteIndex(c, IndexRecord(indexHash(basis), basis, builtAt));
    }

    /** `get_collection_snapshot` answers for the current HEAD. */
    predicate CurrentReadable(c: Id)
      reads this
      ensures CurrentReadable(c) ==> c in heads && c in collections && SnapshotKey(c, heads[c]) in snapshots
    {
      HasCollection(h, Contents(), c) && HasSnapshot(h, Contents(), c, heads[c])
    }

    /** `search_lexical`: whether the index is reused, rebuilt or already stored, the answer lists the best
        matching Files of the current snapshot. */
    method SearchLexical(c: Id, query: string, limit: int, blank: string -> bool, builtAt: string)
        returns (r: Result<seq<LexicalSearch.Hit>, Error>)
      requires Valid()
      modifies this`indexes, this`indexHeads, this`locks
      ensures Valid() && locks == old(locks) && Contents() == old(Contents())
      ensures r.Ok? ==>
        && CurrentReadable(c) && limit >= 1
        && var members := snapshots[SnapshotKey(c, heads[c])].basis.members;
           SearchAnswer.Answers(Contents(), x, members, query, limit, r.value)
      ensures r.Ok? <==>
        && !blank(query) && 1 <= limit <= MAX_SEARCH_LIMIT && CurrentReadable(c)
        && (IndexLock(c) !in locks || (c in old(indexHeads) && old(indexHeads)[c].snapshot == heads[c]))
    {
      hide Collections.CollectionsInv, SearchAnswer.Answers;
      if blank(query) || !(1 <= limit <= MAX_SEARCH_LIMIT) {
        return Err(InvalidQuery);
      }
      if !CurrentReadable(c) {
        return Err(Refused(Collections.UnknownCollection));
      }
      var index: IndexRecord;
      if c !in indexHeads || indexHeads[c].snapshot != heads[c] {
        var built := BuildLexicalIndex(c, builtAt);
        if built.Err? {
          return Err(built.error);
        }
        index := built.value;
      } else {
        if indexHeads[c].index !in indexes {
          assert false;
        }
        index := indexes[indexHeads[c].index];
        if index.basis.snapshot != heads[c] {
          assert false;
        }
        assert IndexSound(h, Contents(), x, indexHash, index.id, index);
      }
      var queryTokens := LexicalSearch.Tokenize(x.normalize(query), x.isToken);
      var scored := LexicalSearch.Scored(LexicalSearch.TermCounts(queryTokens), index.basis.documents);
      MembersReadable(h, Contents(), SnapshotKey(c, heads[c]));
      SearchAnswer.BruteForceAnswers(h, Contents(), x, snapshots[SnapshotKey(c, heads[c])].basis.members, query, limit);
      r := Ok(LexicalSearch.Truncated(LexicalSearch.Ranked(scored), limit));
    }

    /** The Files and Collections part of `verify`, for any store content. */
    method Verify() returns (accepted: bool)
      ensures accepted <==>
        (forall f :: f in files ==> Readable(h, Contents(), f)) && forall c :: c in collections ==>
          CollectionVerifies(h, Contents(), c)
    {
      hide CollectionVerifies, Readable;
      var fileIds := Collections.Ascending(files.Keys);
      for i := 0 to |fileIds|
        invariant forall j :: 0 <= j < i ==> Readable(h, Contents(), fileIds[j])
      {
        if !Readable(h, Contents(), fileIds[i]) {
          assert fileIds[i] in files;
          return false;
        }
      }
      var collectionIds := Collections.Ascending(collections.Keys);
      for i := 0 to |collectionIds|
        invariant forall j :: 0 <= j < i ==> CollectionVerifies(h, Contents(), collectionIds[j])
      {
        var ok, _ := WalkLineage(h, Contents(), collectionIds[i]);
        if !ok {
          assert collectionIds[i] in collections;
          return false;
        }
      }
      return true;
    }
  }
}
