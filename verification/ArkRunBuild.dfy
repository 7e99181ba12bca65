/** Building a one-run recovery bundle (`build_ark_bundle` in `storage/ark_recovery_bundle.py`), and
    exactly when it succeeds. */
module ArkRunBuild {
  import opened Common
  import opened Vault
  import opened RunLog
  import opened ArkRunBundle
  import Capsule = RestoreCapsule
  import Collections
  import IS = InteractionStore
  import RunLoops
  import RunPlans
  import RunTransfer
  import Sorting

  // ----- building -----

  /** The row loop: every bound File of a verified run can be read. */
  method GatherRows(h: RunHashes, v: Store, ids: seq<Id>) returns (rows: seq<FileRow>)
    requires forall f :: f in ids ==> Readable(h.store, v, f)
    ensures RowsAre(h, v, ids, rows)
  {
    rows := [];
    for i := 0 to |ids|
      invariant |rows| == i && forall j :: 0 <= j < i ==> RowIs(h, v, ids[j], rows[j])
    {
      assert ids[i] in ids;
      rows := rows + [FileRow(v.files[ids[i]], v.objects[v.files[ids[i]].basis.objectId])];
    }
  }

  /** The entry list, in the order the builder appends it. */
  method CollectItems(p: Profile, g: Gathered) returns (items: seq<Item>)
    ensures items == Items(p, g)
  {
    hide ClassOf;
    items := [Item(RunPlace(g.run.id), p.write(RunJson(g.run)), ClassOf(g), Capsule.NearShell)];
    ghost var head := items;
    for i := 0 to |g.events|
      invariant items == head + EventItems(p, g.events, ClassOf(g))[..i]
    {
      items := items + [EventItem(p, g.events[i], ClassOf(g))];
    }
    assert EventItems(p, g.events, ClassOf(g))[..|g.events|] == EventItems(p, g.events, ClassOf(g));
    head := items;
    for i := 0 to |g.rows|
      invariant items == head + FileItems(p, g.rows[..i])
    {
      var row := g.rows[i];
      assert g.rows[..i + 1][..i] == g.rows[..i];
      items := items
        + [Item(FilePlace(row.record.id), p.write(FileJson(row.record)), row.record.basis.privacy, Capsule.MidShell),
           Item(ObjectPlace(row.record.basis.objectId), row.payload, row.record.basis.privacy, Capsule.OuterShell)];
    }
    assert g.rows[..|g.rows|] == g.rows;
    items := items + CollectionItems(p, g.descriptor, g.chain);
    items := items + [Item(LatticePlace, p.write(LatticeJson), Internal, Capsule.NearShell)];
  }

  lemma BoundAreReadable(h: RunHashes, v: Store, r: Run, es: seq<Event>)
    requires BoundObjectsReadable(h, v, r, es)
    ensures forall f :: f in BoundFiles(v, r, es) ==> Readable(h.store, v, f)
  {
    hide Readable, HasSnapshot;
  }

  lemma {:induction false} RowsUnique(h: RunHashes, v: Store, ids: seq<Id>, a: seq<FileRow>, b: seq<FileRow>)
    requires RowsAre(h, v, ids, a) && RowsAre(h, v, ids, b)
    ensures a == b
  {
    hide Readable;
    forall i | 0 <= i < |a| ensures a[i] == b[i] {
      assert RowIs(h, v, ids[i], a[i]) && RowIs(h, v, ids[i], b[i]);
    }
  }

  /** A run determines what is gathered for it. */
  lemma GathersUnique(h: RunHashes, v: Store, log: Log, run: Id, a: Gathered, b: Gathered)
    requires Gathers(h, v, log, run, a) && Gathers(h, v, log, run, b)
    ensures a == b
  {
    hide RowsAre, LineageOf, VerifyRunAccepts, History, BoundFiles;
    RowsUnique(h, v, Collections.Ascending(BoundFiles(v, a.run, a.events)), a.rows, b.rows);
  }

  /** No two of these Files share their raw object. */
  ghost predicate ObjectsUnshared(v: Store, files: set<Id>) {
    forall a, b :: a in files && b in files && a != b && a in v.files && b in v.files ==>
      v.files[a].basis.objectId != v.files[b].basis.objectId
  }

  /** A store the operations can produce, with the log over it. */
  ghost predicate SoundState(h: RunHashes, v: Store, log: Log) {
    RunPlans.LogInv(h, v, log) && Collections.CollectionsInv(h.store, v)
  }

  lemma BoundRowsThere(h: RunHashes, v: Store, log: Log, run: Id)
    requires VerifyRunAccepts(h, v, log, run)
    ensures
      var ids := Collections.Ascending(BoundFiles(v, log.runs[run], History(h, v, log, run).value));
      && (forall i :: 0 <= i < |ids| ==> ids[i] in v.files && v.files[ids[i]].basis.objectId in v.objects)
      && RowsAre(h, v, ids, RowsFor(v, ids))
  {
    hide History, Collections.Ascending;
    var ids := Collections.Ascending(BoundFiles(v, log.runs[run], History(h, v, log, run).value));
    forall i | 0 <= i < |ids| ensures Readable(h.store, v, ids[i]) { assert ids[i] in ids; }
  }

  /** The snapshot a verified run is bound to has its whole lineage. */
  lemma BoundLineage(h: RunHashes, v: Store, log: Log, run: Id)
    requires Collections.CollectionsInv(h.store, v) && VerifyRunAccepts(h, v, log, run)
    requires log.runs[run].basis.collection.Some?
    ensures
      var ref := log.runs[run].basis.collection.value;
      ref.collection in v.collections && LineageOf(h.store, v, ref).Some?
  {
    hide History, Verifies, Collections.Lineage, Collections.HeadSound;
    var ref := log.runs[run].basis.collection.value;
    assert Collections.Rooted(h.store, v.snapshots, SnapshotKey(ref.collection, ref.snapshot));
  }

  /** What the builder gathers for a verified run: there is always something to gather. */
  ghost function GatheredOf(h: RunHashes, v: Store, log: Log, run: Id): (g: Gathered)
    requires SoundState(h, v, log) && VerifyRunAccepts(h, v, log, run)
    ensures Gathers(h, v, log, run, g)
  {
    hide History, Verifies, BoundFiles, RunPlans.LogInv, Collections.CollectionsInv, LineageOf, RowsFor, RowsAre;
    var es := History(h, v, log, run).value;
    var r := log.runs[run];
    BoundRowsThere(h, v, log, run);
    var rows := RowsFor(v, Collections.Ascending(BoundFiles(v, r, es)));
    match r.basis.collection
    case None => Gathered(r, es, rows, None, [])
    case Some(ref) =>
      BoundLineage(h, v, log, run);
      Gathered(r, es, rows, Some(v.collections[ref.collection]), LineageOf(h.store, v, ref).value)
  }

  ghost predicate Bundled(p: Profile, v: Store, log: Log, run: Id, g: Gathered, capsule: Bytes) {
    && Gathers(p.h, v, log, run, g) && |g.rows| <= MAX_RECOVERY_FILES
    && Capsule.Packed(p.coder, BundleEntries(p, g)) == Ok(capsule)
  }

  /** What packing still demands once the paths are distinct. */
  ghost predicate WithinCapsule(p: Profile, g: Gathered) {
    var es := BundleEntries(p, g);
    && Capsule.EntriesValid(p.coder, es) && |es| <= Capsule.MAX_ENTRY_COUNT
      && Capsule.TotalSize(es) <= Capsule.MAX_PAYLOAD_BYTES
    && |p.coder.encode(Capsule.ManifestFor(p.coder, Capsule.Sorted(es)))| <= Capsule.MAX_MANIFEST_BYTES
  }

  /** When a verified run can be bundled: few enough Files, none over the object of another, and a capsule
      within the limits. */
  ghost predicate Bundleable(p: Profile, v: Store, log: Log, run: Id)
    requires SoundState(p.h, v, log) && VerifyRunAccepts(p.h, v, log, run)
  {
    var files := BoundFiles(v, log.runs[run], History(p.h, v, log, run).value);
    |files| <= MAX_RECOVERY_FILES && ObjectsUnshared(v, files) && WithinCapsule(p, GatheredOf(p.h, v, log, run))
  }

  /** What the builder reads before it writes any entry. */
  method Gather(h: RunHashes, v: Store, r: Run, es: seq<Event>, ghost log: Log) returns (g: Result<Gathered, Error>)
    requires VerifyRunAccepts(h, v, log, r.id) && r.id in log.runs && log.runs[r.id] == r
      && History(h, v, log, r.id) == Some(es)
    ensures g.Ok? <==> exists other :: Gathers(h, v, log, r.id, other) && |other.rows| <= MAX_RECOVERY_FILES
    ensures g.Ok? ==> Gathers(h, v, log, r.id, g.value) && |g.value.rows| <= MAX_RECOVERY_FILES
    ensures SoundState(h, v, log) ==> (g.Ok? <==> |BoundFiles(v, r, es)| <= MAX_RECOVERY_FILES)
  {
    hide VerifyRunAccepts, History, BoundFiles, RowsAre, LineageOf, Readable, HasSnapshot;
    hide RunPlans.LogInv, Collections.CollectionsInv;
    VerifiedBinds(h, v, log, r.id);
    BoundAreReadable(h, v, r, es);
    AscendingCounts(BoundFiles(v, r, es));
    if SoundState(h, v, log) && r.basis.collection.Some? { BoundLineage(h, v, log, r.id); }
    var descriptor: Option<Descriptor> := None;
    var chain: seq<Snapshot> := [];
    if r.basis.collection.Some? {
      var ref := r.basis.collection.value;
      var walked := SnapshotChain(h.store, v, ref);
      if walked.None? {
        return Err(BrokenLineage);
      }
      BoundHasDescriptor(h, v, ref);
      descriptor, chain := Some(v.collections[ref.collection]), walked.value;
    }
    var ids := Collections.Ascending(BoundFiles(v, r, es));
    if |ids| > MAX_RECOVERY_FILES {
      forall other | Gathers(h, v, log, r.id, other) ensures |other.rows| > MAX_RECOVERY_FILES {
        RowsCounted(h, v, ids, other.rows);
      }
      return Err(TooManyFiles);
    }
    var rows := GatherRows(h, v, ids);
    RowsCounted(h, v, ids, rows);
    g := Ok(Gathered(r, es, rows, descriptor, chain));
  }

  /** `build_ark_bundle`.  Over any store content the answer is a bundle of what the run binds; over every
      reachable store it succeeds exactly for the unlocked runs that verify and can be bundled. */
  method BuildArkBundle(p: Profile, store: IS.InteractionStore, run: Id) returns (r: Result<Bytes, Error>)
    requires p.Sound() && p.h == store.h
    modifies store`locks
    ensures store.locks == old(store.locks)
    ensures r.Ok? <==> run !in store.locks && exists g, capsule ::
      Bundled(p, store.storage.Contents(), store.Records(), run, g, capsule)
    ensures r.Ok? ==> exists g :: Bundled(p, store.storage.Contents(), store.Records(), run, g, r.value)
    ensures SoundState(p.h, store.storage.Contents(), store.Records()) ==>
      var v, log := store.storage.Contents(), store.Records();
      && (r.Ok? <==> run !in store.locks && VerifyRunAccepts(p.h, v, log, run) && Bundleable(p, v, log, run))
      && (r.Ok? ==> Bundled(p, v, log, run, GatheredOf(p.h, v, log, run), r.value))
  {
    hide Verifies, History, HasRun, Gathers, Capsule.Packed, BundleEntries, VerifyRunAccepts, SoundState, Bundleable,
      Bundled;
    ghost var v, log := store.storage.Contents(), store.Records();
    GatheredVerifies(p, v, log, run);
    if SoundState(p.h, v, log) && VerifyRunAccepts(p.h, v, log, run) { BundleExistsIff(p, v, log, run); }
    var verified := store.VerifyRun(run);
    assert store.storage.Contents() == v && store.Records() == log;
    if verified.Err? {
      return Err(NotVerified);
    }
    RunNamed(p.h, v, log, run);
    var events := store.ListEvents(run);
    r := BundleCaptured(p, store.storage.Contents(), store.runs[run], events.value, log);
    assert store.storage.Contents() == v && store.Records() == log;
    assert log.runs[run].id == run;
    assert r.Ok? <==> exists g, capsule :: Bundled(p, v, log, run, g, capsule);
  }

  /** The rest of `build_ark_bundle`, over the run and events it captured. */
  method BundleCaptured(p: Profile, v: Store, run: Run, es: seq<Event>, ghost log: Log)
      returns (r: Result<Bytes, Error>)
    requires p.Sound() && VerifyRunAccepts(p.h, v, log, run.id)
    requires run.id in log.runs && log.runs[run.id] == run && History(p.h, v, log, run.id) == Some(es)
    ensures r.Ok? <==> exists g, capsule :: Bundled(p, v, log, run.id, g, capsule)
    ensures r.Ok? ==> exists g :: Bundled(p, v, log, run.id, g, r.value)
  {
    hide VerifyRunAccepts, History, Gathers, Capsule.Packed, BundleEntries;
    var gathered := Gather(p.h, v, run, es, log);
    if gathered.Err? {
      return Err(gathered.error);
    }
    var g := gathered.value;
    forall other | Gathers(p.h, v, log, run.id, other) ensures other == g {
      GathersUnique(p.h, v, log, run.id, other, g);
    }
    var items := CollectItems(p, g);
    EntriesBuilt(p, g);
    var packed := Capsule.PackCapsule(p.coder, EntriesFor(p, items + [BootstrapItem(p, g)]));
    if packed.Err? {
      return Err(CapsuleFailed(packed.error));
    }
    assert Bundled(p, v, log, run.id, g, packed.value);
    r := Ok(packed.value);
  }

  lemma GatheredVerifies(p: Profile, v: Store, log: Log, run: Id)
    ensures (exists g, capsule :: Bundled(p, v, log, run, g, capsule)) ==> VerifyRunAccepts(p.h, v, log, run)
  {
    hide VerifyRunAccepts, History, BoundFiles, RowsAre, LineageOf, Capsule.Packed, BundleEntries;
  }

  lemma RunNamed(h: RunHashes, v: Store, log: Log, run: Id)
    requires VerifyRunAccepts(h, v, log, run)
    ensures run in log.runs && log.runs[run].id == run && HasRun(h, v, log, run) && History(h, v, log, run).Some?
  {
  }

  lemma EntriesBuilt(p: Profile, g: Gathered)
    ensures EntriesFor(p, Items(p, g) + [BootstrapItem(p, g)]) == BundleEntries(p, g)
  {
  }

  lemma RowsCounted(h: RunHashes, v: Store, ids: seq<Id>, rows: seq<FileRow>)
    requires RowsAre(h, v, ids, rows)
    ensures |rows| == |ids|
  {
  }

  lemma VerifiedBinds(h: RunHashes, v: Store, log: Log, run: Id)
    requires VerifyRunAccepts(h, v, log, run)
    ensures
      var r := log.runs[run];
      && BoundObjectsReadable(h, v, r, History(h, v, log, run).value)
      && (r.basis.collection.Some? ==> HasSnapshot(h.store, v, r.basis.collection.value.collection,
        r.basis.collection.value.snapshot))
  {
  }

  lemma BoundHasDescriptor(h: RunHashes, v: Store, ref: CollectionRef)
    requires HasSnapshot(h.store, v, ref.collection, ref.snapshot)
    ensures ref.collection in v.collections
  {
  }

  /** Within the size limits a verified run can be bundled exactly when the Files it binds have pairwise
      distinct objects: two Files over one object are refused as a repeated path. */
  lemma BundleSucceedsIff(p: Profile, g: Gathered)
    requires p.Sound() && Orderly(g)
    ensures Capsule.Packed(p.coder, BundleEntries(p, g)).Ok? <==> WithinCapsule(p, g) && ObjectsDistinct(g.rows)
    ensures WithinCapsule(p, g) && !ObjectsDistinct(g.rows)
      ==> Capsule.Packed(p.coder, BundleEntries(p, g)) == Err(Capsule.DuplicatePath)
  {
    hide BundleEntries, Capsule.PathsDistinct, Capsule.EntriesValid, Capsule.Sorted, Capsule.ManifestFor,
      Capsule.TotalSize, ObjectsDistinct;
    var es := BundleEntries(p, g);
    BundlePathsDistinct(p, g);
    BundleNotEmpty(p, g);
    Capsule.SortedPermutes(es);
    Capsule.TotalSizeByMultiset(es, Capsule.Sorted(es));
    Capsule.PathsDistinctByMultiset(es, Capsule.Sorted(es));
  }

  lemma BundleNotEmpty(p: Profile, g: Gathered)
    ensures BundleEntries(p, g) != []
  {
    assert |EntriesFor(p, Items(p, g) + [BootstrapItem(p, g)])| == |Items(p, g)| + 1;
  }

  /** Everything gathered from a reachable store is orderly. */
  lemma GatheredIsOrderly(h: RunHashes, v: Store, log: Log, run: Id, g: Gathered)
    requires RunPlans.LogInv(h, v, log) && Gathers(h, v, log, run, g)
    ensures Orderly(g) && g.run.id == run
  {
    hide BoundFiles, VerifyRunAccepts, History;
    GatheredChain(h, v, log, run, g);
    var ids := Collections.Ascending(BoundFiles(v, g.run, g.events));
    forall i, j | 0 <= i < j < |g.rows| ensures g.rows[i].record.id != g.rows[j].record.id {
      assert RowIs(h, v, ids[i], g.rows[i]) && RowIs(h, v, ids[j], g.rows[j]);
    }
    if g.run.basis.collection.Some? {
      LineageIdsDistinct(h.store, v, g.run.basis.collection.value, g.chain);
    }
  }

  lemma {:induction false} AscendingCounts(s: set<Id>)
    ensures |Collections.Ascending(s)| == |s|
    decreases |s|
  {
    if s != {} { AscendingCounts(s - {Collections.Minimum(s)}); }
  }

  lemma UnsharedIffDistinct(h: RunHashes, v: Store, files: set<Id>, rows: seq<FileRow>)
    requires RowsAre(h, v, Collections.Ascending(files), rows)
    ensures ObjectsUnshared(v, files) <==> ObjectsDistinct(rows)
    ensures |rows| == |files|
  {
    hide Readable;
    var ids := Collections.Ascending(files);
    AscendingCounts(files);
    forall i | 0 <= i < |ids| ensures RowIs(h, v, ids[i], rows[i]) && ids[i] in files && ids[i] in v.files {
      RowStored(h, v, ids[i], rows[i]);
      assert ids[i] in ids;
    }
    if ObjectsUnshared(v, files) {
      forall i, j | 0 <= i < j < |rows| ensures rows[i].record.basis.objectId != rows[j].record.basis.objectId {
        assert RowIs(h, v, ids[i], rows[i]) && RowIs(h, v, ids[j], rows[j]) && ids[i] != ids[j];
      }
    }
    if ObjectsDistinct(rows) {
      forall a, b | a in files && b in files && a != b && a in v.files && b in v.files
        ensures v.files[a].basis.objectId != v.files[b].basis.objectId
      {
        assert a in ids && b in ids;
        var i :| 0 <= i < |ids| && ids[i] == a;
        var j :| 0 <= j < |ids| && ids[j] == b;
        assert RowIs(h, v, ids[i], rows[i]) && RowIs(h, v, ids[j], rows[j]);
      }
    }
  }

  lemma RowStored(h: RunHashes, v: Store, file: Id, row: FileRow)
    requires RowIs(h, v, file, row)
    ensures file in v.files
  {
  }

  /** For every verified run of a reachable store: there is a bundle if and only if the run binds no more Files
      than the limit, none of them over the object of another, and the capsule is within its limits. */
  lemma BundleExistsIff(p: Profile, v: Store, log: Log, run: Id)
    requires p.Sound() && SoundState(p.h, v, log) && VerifyRunAccepts(p.h, v, log, run)
    ensures (exists g, capsule :: Bundled(p, v, log, run, g, capsule)) <==> Bundleable(p, v, log, run)
    ensures forall g, capsule :: Bundled(p, v, log, run, g, capsule) ==> g == GatheredOf(p.h, v, log, run)
  {
    hide Gathers, RunPlans.LogInv, Collections.CollectionsInv, VerifyRunAccepts, History, Capsule.Packed, BundleEntries,
      WithinCapsule, BoundFiles, ObjectsUnshared, ObjectsDistinct, Orderly;
    var g := GatheredOf(p.h, v, log, run);
    forall other | Gathers(p.h, v, log, run, other) ensures other == g {
      GathersUnique(p.h, v, log, run, other, g);
    }
    GatheredIsOrderly(p.h, v, log, run, g);
    BundleSucceedsIff(p, g);
    GatheredParts(p.h, v, log, run, g);
    UnsharedIffDistinct(p.h, v, BoundFiles(v, g.run, g.events), g.rows);
    if Capsule.Packed(p.coder, BundleEntries(p, g)).Ok? && |g.rows| <= MAX_RECOVERY_FILES {
      assert Bundled(p, v, log, run, g, Capsule.Packed(p.coder, BundleEntries(p, g)).value);
    }
  }

  lemma GatheredParts(h: RunHashes, v: Store, log: Log, run: Id, g: Gathered)
    requires Gathers(h, v, log, run, g)
    ensures VerifyRunAccepts(h, v, log, run) && g.run == log.runs[run] && g.events == History(h, v, log, run).value
    ensures RowsAre(h, v, Collections.Ascending(BoundFiles(v, g.run, g.events)), g.rows)
  {
    hide History, Verifies, BoundFiles, RowsAre, LineageOf;
  }

  lemma GatheredChain(h: RunHashes, v: Store, log: Log, run: Id, g: Gathered)
    requires RunPlans.LogInv(h, v, log) && Gathers(h, v, log, run, g)
    ensures run in log.heads && g.run.id == run && StoredChain(h, v, log.events, run, g.events)
    ensures ParentsLinked(g.events) && BoundObjectsReadable(h, v, g.run, g.events) && RunValid(h, v, g.run)
  {
    hide RowsAre, LineageOf, BoundFiles, StoredChain, Verifies, RunPlans.LogInv, RunValid, AtHead;
    HasHead(h, v, log, run);
    RunPlans.HistoryStored(h, v, log, run);
    VerifiesIffLinked(h, v, log.events, g.run, g.events);
  }

  lemma HasHead(h: RunHashes, v: Store, log: Log, run: Id)
    requires VerifyRunAccepts(h, v, log, run)
    ensures run in log.heads
  {
  }

  lemma LineageIdsDistinct(h: Hashes, v: Store, ref: CollectionRef, chain: seq<Snapshot>)
    requires LineageOf(h, v, ref) == Some(chain)
    ensures forall i, j :: 0 <= i < j < |chain| ==> chain[i].id != chain[j].id
  {
    var n := v.snapshots[SnapshotKey(ref.collection, ref.snapshot)].basis.revision;
    Collections.LineageConsecutive(h, v.snapshots, ref.collection, ref.snapshot, n);
    forall i, j | 0 <= i < j < |chain| ensures chain[i].id != chain[j].id {
      assert chain[i].basis.revision == i && chain[j].basis.revision == j;
      assert v.snapshots[SnapshotKey(ref.collection, chain[i].id)] == chain[i];
      assert v.snapshots[SnapshotKey(ref.collection, chain[j].id)] == chain[j];
    }
  }
}
