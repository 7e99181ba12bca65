/** Reconstructing a store from a one-run recovery bundle (`_entry_map` and `_reconstruct` in
    `storage/ark_recovery_bundle.py`). */
module ArkRunReconstruct {
  import opened Common
  import opened Vault
  import opened RunLog
  import opened ArkRunBundle
  import opened ArkRunBuild
  import opened ArkRunInstall
  import opened ArkRunDelivery
  import ArkPackage
  import Capsule = RestoreCapsule
  import Collections
  import IS = InteractionStore
  import RunLoops
  import RunOps
  import RunPlans
  import RunTransfer
  import Sorting

  /** The new store and the run it was made for. */
  datatype Restored = Restored(run: Id, store: Store, log: Log)

  // ----- a store that holds the gathered records -----

  ghost predicate RowsHeld(g: Gathered, t: Store) {
    forall i :: 0 <= i < |g.rows| ==>
      && g.rows[i].record.id in t.files && t.files[g.rows[i].record.id] == g.rows[i].record
      && g.rows[i].record.basis.objectId in t.objects && t.objects[g.rows[i].record.basis.objectId] == g.rows[i].payload
  }

  /** HEAD at the run's own snapshot, with every snapshot below it. */
  ghost predicate ChainHeld(g: Gathered, t: Store) {
    match g.run.basis.collection
    case None => true
    case Some(ref) =>
      && g.descriptor.Some? && ref.collection in t.collections && t.collections[ref.collection] == g.descriptor.value
      && ref.collection in t.heads && t.heads[ref.collection] == ref.snapshot
      && forall i :: 0 <= i < |g.chain| ==>
           SnapshotKey(ref.collection, g.chain[i].id) in t.snapshots
             && t.snapshots[SnapshotKey(ref.collection, g.chain[i].id)] == g.chain[i]
  }

  ghost predicate LogHeld(g: Gathered, l: Log) {
    && g.run.id in l.runs && l.runs[g.run.id] == g.run
    && (forall i :: 0 <= i < |g.events| ==> g.events[i].id in l.events && l.events[g.events[i].id] == g.events[i])
    && g.run.id in l.heads && l.heads[g.run.id] == Head(IdBefore(g.events, |g.events|), |g.events| - 1)
  }

  lemma BoundFilesHeld(h: RunHashes, v: Store, log: Log, g: Gathered, t: Store, f: Id)
    requires Gathers(h, v, log, g.run.id, g) && RowsHeld(g, t) && f in BoundFiles(v, g.run, g.events)
    ensures Readable(h.store, t, f)
  {
    hide BoundFiles, VerifyRunAccepts, LineageOf, History;
    var ids := Collections.Ascending(BoundFiles(v, g.run, g.events));
    assert f in ids;
    var i :| 0 <= i < |ids| && ids[i] == f;
    assert RowIs(h, v, ids[i], g.rows[i]);
  }

  lemma EventsHeld(h: RunHashes, v: Store, log: Log, g: Gathered, t: Store, l: Log, i: nat)
    requires RunPlans.LogInv(h, v, log) && Gathers(h, v, log, g.run.id, g) && RowsHeld(g, t) && LogHeld(g, l)
      && i < |g.events|
    ensures HasEvent(h, t, l.events, g.events[i].id) && l.events[g.events[i].id] == g.events[i]
  {
    hide VerifyRunAccepts, History, LineageOf, RunPlans.LogInv, Gathers, RowsHeld, BoundFiles, RolesValid, RunValid;
    GatheredChain(h, v, log, g.run.id, g);
    var e := g.events[i];
    assert HasEvent(h, v, log.events, e.id) && log.events[e.id] == e;
    forall k | 0 <= k < |e.basis.files| ensures HasFile(h.store, t, e.basis.files[k]) {
      EventFileBound(v, g.run, g.events, i, e.basis.files[k]);
      BoundFilesHeld(h, v, log, g, t, e.basis.files[k]);
    }
  }

  lemma EventFileBound(v: Store, r: Run, es: seq<Event>, i: nat, f: Id)
    requires i < |es| && f in es[i].basis.files
    ensures f in BoundFiles(v, r, es)
  {
  }

  /** A lineage found in one store is found in any store with the same snapshots. */
  lemma {:induction false} LineageRestricted(h: Hashes, a: map<SnapshotKey, Snapshot>, b: map<SnapshotKey, Snapshot>,
      c: Id, s: Id, n: nat)
    requires Collections.Lineage(h, a, c, s, n).Some?
    requires
      var chain := Collections.Lineage(h, a, c, s, n).value;
      forall i :: 0 <= i < |chain| ==> SnapshotKey(c, chain[i].id) in b && b[SnapshotKey(c, chain[i].id)] == chain[i]
    ensures Collections.Lineage(h, b, c, s, n) == Collections.Lineage(h, a, c, s, n)
    decreases n
  {
    var chain, e := Collections.Lineage(h, a, c, s, n).value, a[SnapshotKey(c, s)];
    assert chain[|chain| - 1] == e;
    if e.basis.previous.Some? {
      var older := Collections.Lineage(h, a, c, e.basis.previous.value, n - 1).value;
      assert forall i :: 0 <= i < |older| ==> chain[i] == older[i];
      LineageRestricted(h, a, b, c, e.basis.previous.value, n - 1);
    }
  }

  lemma SnapshotHeld(h: RunHashes, v: Store, log: Log, g: Gathered, t: Store)
    requires RunPlans.LogInv(h, v, log) && Gathers(h, v, log, g.run.id, g) && ChainHeld(g, t)
      && g.run.basis.collection.Some?
    ensures
      var ref := g.run.basis.collection.value;
      && HasSnapshot(h.store, t, ref.collection, ref.snapshot) && LineageOf(h.store, t, ref) == Some(g.chain)
      && SnapshotKey(ref.collection, ref.snapshot) in v.snapshots
      && t.snapshots[SnapshotKey(ref.collection, ref.snapshot)] == v.snapshots[SnapshotKey(ref.collection,
        ref.snapshot)]
  {
    hide VerifyRunAccepts, History, RunPlans.LogInv, RowsAre, BoundFiles;
    GatheredChain(h, v, log, g.run.id, g);
    var ref := g.run.basis.collection.value;
    var n := v.snapshots[SnapshotKey(ref.collection, ref.snapshot)].basis.revision;
    Collections.LineageConsecutive(h.store, v.snapshots, ref.collection, ref.snapshot, n);
    assert g.chain[n] == v.snapshots[SnapshotKey(ref.collection, ref.snapshot)];
    LineageRestricted(h.store, v.snapshots, t.snapshots, ref.collection, ref.snapshot, n);
  }

  lemma BoundObjectsHeld(h: RunHashes, v: Store, log: Log, g: Gathered, t: Store)
    requires RunPlans.LogInv(h, v, log) && Gathers(h, v, log, g.run.id, g) && RowsHeld(g, t) && ChainHeld(g, t)
    ensures BoundObjectsReadable(h, t, g.run, g.events)
  {
    hide VerifyRunAccepts, History, RunPlans.LogInv, Gathers, RowsHeld, ChainHeld, Readable, LineageOf, HasSnapshot;
    forall f | f in BoundFiles(v, g.run, g.events) ensures Readable(h.store, t, f) {
      BoundFilesHeld(h, v, log, g, t, f);
    }
    if g.run.basis.collection.Some? { SnapshotHeld(h, v, log, g, t); }
  }

  lemma RunHeld(h: RunHashes, v: Store, log: Log, g: Gathered, t: Store)
    requires RunPlans.LogInv(h, v, log) && Gathers(h, v, log, g.run.id, g) && RowsHeld(g, t) && ChainHeld(g, t)
    ensures RunValid(h, t, g.run)
  {
    hide VerifyRunAccepts, History, RunPlans.LogInv, Gathers, RowsHeld, ChainHeld, LineageOf, HasSnapshot;
    GatheredChain(h, v, log, g.run.id, g);
    forall i | 0 <= i < |g.run.basis.files| ensures HasFile(h.store, t, g.run.basis.files[i]) {
      assert g.run.basis.files[i] in BoundFiles(v, g.run, g.events);
      BoundFilesHeld(h, v, log, g, t, g.run.basis.files[i]);
    }
    if g.run.basis.collection.Some? { SnapshotHeld(h, v, log, g, t); }
  }

  /** A store that holds the gathered records verifies the run, with its history and its lineage. */
  lemma HeldVerifies(h: RunHashes, v: Store, log: Log, g: Gathered, t: Store, l: Log)
    requires RunPlans.LogInv(h, v, log) && Gathers(h, v, log, g.run.id, g)
    requires RowsHeld(g, t) && ChainHeld(g, t) && LogHeld(g, l)
    ensures VerifyRunAccepts(h, t, l, g.run.id) && History(h, t, l, g.run.id) == Some(g.events)
  {
    hide RunPlans.LogInv, Gathers, RowsHeld, ChainHeld, RunValid, HasEvent, Verifies, ParentsLinked,
      BoundObjectsReadable;
    GatheredChain(h, v, log, g.run.id, g);
    forall i | 0 <= i < |g.events| ensures HasEvent(h, t, l.events, g.events[i].id)
      && l.events[g.events[i].id] == g.events[i] {
      EventsHeld(h, v, log, g, t, l, i);
    }
    ChainedBack(h, t, l.events, g.run.id, g.events);
    RunHeld(h, v, log, g, t);
    BoundObjectsHeld(h, v, log, g, t);
    VerifiesIffLinked(h, t, l.events, g.run, g.events);
  }

  // ----- opening the bundle -----

  ghost predicate Packs(p: Profile, g: Gathered, capsule: Bytes) {
    Capsule.Packed(p.coder, BundleEntries(p, g)) == Ok(capsule)
  }

  /** The entry set a bundle arrives with is the one its bootstrap requires. */
  lemma EntrySetMatches(p: Profile, g: Gathered, es: seq<Entry>)
    requires p.Sound() && Capsule.PathsDistinct(es) && Capsule.PathsDistinct(BundleEntries(p, g))
    requires forall e :: e in es <==> e in BundleEntries(p, g)
    ensures SortedPaths(Without(EntryPaths(es), p.path(BootstrapPlace))) == BootstrapOf(p, g).required
  {
    hide Items, BootstrapItem, Capsule.PathsDistinct;
    var sent, boot := PathsOf(p, Items(p, g)), p.path(BootstrapPlace);
    var came := Without(EntryPaths(es), boot);
    BundlePathList(p, g);
    DistinctPathList(es);
    DistinctPathList(BundleEntries(p, g));
    DistinctConcat(sent, [boot]);
    WithoutIs(EntryPaths(es), boot);
    SamePathSets(es, BundleEntries(p, g));
    assert forall b :: b in sent + [boot] <==> b in sent || b == boot;
    DistinctSame(came, sent);
    assert Sorting.KeysDistinct(came, PathKey());
    Sorting.SortPermutation(came, sent, PathKey());
  }

  lemma BundlePathList(p: Profile, g: Gathered)
    ensures EntryPaths(BundleEntries(p, g)) == PathsOf(p, Items(p, g)) + [p.path(BootstrapPlace)]
  {
    hide Items, BootstrapOf;
  }

  lemma DistinctPathList(es: seq<Entry>)
    ensures Distinct(EntryPaths(es)) <==> Capsule.PathsDistinct(es)
  {
    var paths := EntryPaths(es);
    if Distinct(paths) {
      forall i, j | 0 <= i < j < |es| ensures es[i].path != es[j].path { assert paths[i] != paths[j]; }
    }
  }

  lemma SamePathSets(a: seq<Entry>, b: seq<Entry>)
    requires forall e :: e in a <==> e in b
    ensures forall x :: x in EntryPaths(a) <==> x in EntryPaths(b)
  {
    forall x | x in EntryPaths(a) ensures x in EntryPaths(b) {
      var i :| 0 <= i < |a| && EntryPaths(a)[i] == x;
      assert a[i] in b;
      var j :| 0 <= j < |b| && b[j] == a[i];
      assert EntryPaths(b)[j] == x;
    }
    forall x | x in EntryPaths(b) ensures x in EntryPaths(a) {
      var i :| 0 <= i < |b| && EntryPaths(b)[i] == x;
      assert b[i] in a;
      var j :| 0 <= j < |a| && a[j] == b[i];
      assert EntryPaths(a)[j] == x;
    }
  }

  lemma ParsedBundle(p: Profile, g: Gathered, capsule: Bytes, m: Capsule.Manifest, es: seq<Entry>)
    requires p.Sound() && Packs(p, g, capsule) && Capsule.ParsesTo(p.coder, capsule, m, es)
    ensures forall e :: e in es <==> e in BundleEntries(p, g)
    ensures Capsule.PathsDistinct(es) && Capsule.PathsDistinct(BundleEntries(p, g))
  {
    hide BundleEntries, Capsule.ParsesTo;
    var sent := BundleEntries(p, g);
    ArkPackage.ReportSays(p.coder, sent, capsule, m, es);
    Capsule.SortedPermutes(sent);
    Capsule.PathsDistinctByMultiset(es, sent);
  }

  lemma CapsuleParses(p: Profile, g: Gathered, capsule: Bytes)
    requires p.Sound() && Packs(p, g, capsule)
    ensures exists m, es :: Capsule.ParsesTo(p.coder, capsule, m, es)
  {
    hide BundleEntries, Capsule.ParsesTo;
    Capsule.PackThenParse(p.coder, BundleEntries(p, g), capsule);
    var es := Capsule.Sorted(BundleEntries(p, g));
    assert Capsule.ParsesTo(p.coder, capsule, Capsule.ManifestFor(p.coder, es), es);
  }

  /** What a capsule says as a run bundle, whoever made it: its entries, each under its path, and among them a
      bootstrap that requires exactly the others, and the lattice profile. */
  ghost predicate Opens(p: Profile, capsule: Bytes, b: Bootstrap, m: map<Bytes, Entry>) {
    exists manifest, es ::
      && Capsule.ParsesTo(p.coder, capsule, manifest, es) && Capsule.PathsDistinct(es) && ArkPackage.Indexes(m, es)
      && p.path(BootstrapPlace) in m && p.read(m[p.path(BootstrapPlace)].data) == Some(BootstrapJson(b))
      && b.required == SortedPaths(Without(EntryPaths(es), p.path(BootstrapPlace)))
      && p.path(LatticePlace) in m && p.read(m[p.path(LatticePlace)].data) == Some(LatticeJson)
  }

  lemma IndexUnique(a: map<Bytes, Entry>, b: map<Bytes, Entry>, es: seq<Entry>)
    requires ArkPackage.Indexes(a, es) && ArkPackage.Indexes(b, es)
    ensures a == b
  {
    forall k | k in a ensures k in b && b[k] == a[k] { assert a[k] in es; }
    forall k | k in b ensures k in a { assert b[k] in es; }
  }

  lemma OpensOnce(p: Profile, capsule: Bytes, manifest: Capsule.Manifest, es: seq<Entry>, m: map<Bytes, Entry>)
    requires Capsule.ParsesTo(p.coder, capsule, manifest, es) && ArkPackage.Indexes(m, es) && Capsule.PathsDistinct(es)
    ensures forall b, n :: Opens(p, capsule, b, n) <==>
      && n == m && p.path(BootstrapPlace) in m && p.read(m[p.path(BootstrapPlace)].data) == Some(BootstrapJson(b))
      && b.required == SortedPaths(Without(EntryPaths(es), p.path(BootstrapPlace)))
      && p.path(LatticePlace) in m && p.read(m[p.path(LatticePlace)].data) == Some(LatticeJson)
  {
    hide Capsule.ParsesTo, Capsule.PathsDistinct, ArkPackage.Indexes, SortedPaths, Without, EntryPaths;
    forall other, fs | Capsule.ParsesTo(p.coder, capsule, other, fs) ensures fs == es {
      Capsule.ParseUnique(p.coder, capsule, manifest, es, other, fs);
    }
    forall n | ArkPackage.Indexes(n, es) ensures n == m { IndexUnique(n, m, es); }
  }

  lemma ParsedDistinct(p: Profile, capsule: Bytes, manifest: Capsule.Manifest, es: seq<Entry>)
    requires Capsule.ParsesTo(p.coder, capsule, manifest, es)
    ensures Capsule.PathsDistinct(es)
  {
    var text, payload :| Capsule.SplitsInto(capsule, text, payload)
      && Capsule.ContentIs(p.coder, text, payload, manifest, es);
    var ms := manifest.base.entries;
    forall i: nat, j: nat | i < j < |es| ensures es[i].path != es[j].path {
      assert Capsule.SectionIs(p.coder, ms, payload, es, i) && Capsule.SectionIs(p.coder, ms, payload, es, j);
      assert Capsule.ManifestPathKey()(ms[i]) != Capsule.ManifestPathKey()(ms[j]);
    }
  }

  lemma NothingOpens(p: Profile, capsule: Bytes)
    requires forall manifest, es :: !Capsule.ParsesTo(p.coder, capsule, manifest, es)
    ensures forall b, m :: !Opens(p, capsule, b, m)
  {
    hide Capsule.ParsesTo;
  }

  /** `_entry_map`: answers exactly what the capsule says as a run bundle. */
  method OpenBundle(p: Profile, capsule: Bytes, ghost g: Gathered)
      returns (r: Result<(Bootstrap, map<Bytes, Entry>), Error>)
    requires p.Sound()
    ensures forall b, m :: r == Ok((b, m)) <==> Opens(p, capsule, b, m)
    ensures Packs(p, g, capsule) ==> r.Ok? && r.value.0 == BootstrapOf(p, g) && BundleHere(p, r.value.1, g)
  {
    hide Packs, BundleEntries, Capsule.ParsesTo, BundleHere, Capsule.PathsDistinct, BootstrapOf, Profile.Sound,
      ArkPackage.Indexes, Opens, SortedPaths, Without;
    ghost var good := Packs(p, g, capsule);
    CoderSound(p);
    if good { CapsuleParses(p, g, capsule); }
    var parsed := Capsule.ParseCapsule(p.coder, capsule);
    if parsed.Err? {
      NothingOpens(p, capsule);
      return Err(CapsuleFailed(parsed.error));
    }
    var entries := parsed.value.1;
    assert Capsule.ParsesTo(p.coder, capsule, parsed.value.0, entries);
    ParsedDistinct(p, capsule, parsed.value.0, entries);
    if good {
      ParsedBundle(p, g, capsule, parsed.value.0, entries);
      EntrySetMatches(p, g, entries);
    }
    ArkPackage.IndexesNothing();
    assert [] + entries == entries;
    var merged := ArkPackage.MergeEntries(map[], entries, []);
    if merged.Err? {
      assert false;
    }
    var m := merged.value;
    OpensOnce(p, capsule, parsed.value.0, entries, m);
    if good {
      ArkPackage.IndexesSame(m, entries, BundleEntries(p, g));
      IndexedIsHere(p, m, g);
      BootstrapHere(p, m, g);
    }
    var at := p.path(BootstrapPlace);
    if at !in m {
      return Err(NoBootstrap);
    }
    var boot := p.read(m[at].data);
    if boot.None? || !boot.value.BootstrapJson? {
      return Err(NoBootstrap);
    }
    var b := boot.value.bootstrap;
    if b.required != SortedPaths(Without(EntryPaths(entries), at)) {
      return Err(WrongEntrySet);
    }
    if p.path(LatticePlace) !in m || p.read(m[p.path(LatticePlace)].data) != Some(LatticeJson) {
      return Err(NoLattice);
    }
    r := Ok((b, m));
  }

  lemma CoderSound(p: Profile)
    requires p.Sound()
    ensures p.coder.Sound()
  {
  }

  lemma BootstrapHere(p: Profile, m: map<Bytes, Entry>, g: Gathered)
    requires p.Sound() && BundleHere(p, m, g)
    ensures p.path(BootstrapPlace) in m
      && p.read(m[p.path(BootstrapPlace)].data) == Some(BootstrapJson(BootstrapOf(p, g)))
    ensures p.path(LatticePlace) in m && p.read(m[p.path(LatticePlace)].data) == Some(LatticeJson)
    ensures p.path(RunPlace(g.run.id)) in m && p.read(m[p.path(RunPlace(g.run.id))].data) == Some(RunJson(g.run))
  {
    hide AllItems, BootstrapOf, ClassOf;
    PartsIn(p, g);
    assert ItemHere(p, m, BootstrapItem(p, g));
    assert ItemHere(p, m, Item(LatticePlace, p.write(LatticeJson), Internal, Capsule.NearShell));
    assert ItemHere(p, m, Item(RunPlace(g.run.id), p.write(RunJson(g.run)), ClassOf(g), Capsule.NearShell));
  }

  // ----- writing the new store -----

  /** The bundle is here, and what was gathered is as a reachable store has it. */
  ghost predicate Ready(p: Profile, m: map<Bytes, Entry>, g: Gathered) {
    BundleHere(p, m, g) && Orderly(g) && ObjectsDistinct(g.rows) && PayloadsNamed(p.h, g.rows) && UniqueIds(g.events)
  }

  /** Raw objects and File records: succeeds exactly when both lists can be installed, and holds just them. */
  method RestoreFiles(p: Profile, m: map<Bytes, Entry>, b: Bootstrap, ghost g: Gathered)
      returns (r: Result<Store, Error>)
    requires p.Sound()
    ensures b == BootstrapOf(p, g) && Ready(p, m, g) ==> r.Ok? && RowsHeld(g, r.value)
    ensures r.Ok? <==> Installable(m, b.objects, ObjectReader(p)) && Installable(m, b.files, FileReader(p))
    ensures r.Ok? ==> exists payloads, records ::
      Installs(m, b.objects, ObjectReader(p), r.value.objects, payloads)
      && Installs(m, b.files, FileReader(p), r.value.files, records)
    ensures r.Ok? ==> r.value.collections == map[] && r.value.snapshots == map[] && r.value.heads == map[]
  {
    hide BundleHere, BootstrapOf, Delivered, Lists, Installable, Installs, ObjectReader, FileReader, Profile.Sound;
    ghost var good := b == BootstrapOf(p, g) && Ready(p, m, g);
    if good {
      FilesReady(p, m, g);
    }
    var objects := Install(m, b.objects, ObjectReader(p));
    if objects.None? {
      return Err(WrongObject);
    }
    var files := Install(m, b.files, FileReader(p));
    if files.None? {
      return Err(WrongFile);
    }
    r := Ok(Store(objects.value.0, files.value.0, map[], map[], map[]));
    assert Installs(m, b.objects, ObjectReader(p), r.value.objects, objects.value.1);
    if good {
      FilesInstalled(p, m, g, b, objects.value.0, objects.value.1, files.value.0, files.value.1);
    }
  }

  lemma FilesReady(p: Profile, m: map<Bytes, Entry>, g: Gathered)
    requires p.Sound() && Ready(p, m, g)
    ensures Delivered(m, ObjectParcels(p, g.rows), ObjectReader(p))
      && Delivered(m, FileParcels(p, g.rows), FileReader(p))
    ensures Delivered(m, EventParcels(p, g.events), EventReader(p))
    ensures Lists(BootstrapOf(p, g).objects, ObjectParcels(p, g.rows))
      && Lists(BootstrapOf(p, g).files, FileParcels(p, g.rows))
    ensures Lists(BootstrapOf(p, g).events, EventParcels(p, g.events))
    ensures Installable(m, BootstrapOf(p, g).objects, ObjectReader(p))
      && Installable(m, BootstrapOf(p, g).files, FileReader(p))
    ensures Installable(m, BootstrapOf(p, g).events, EventReader(p))
  {
    hide BundleHere, Delivered, Lists, Installable, Profile.Sound, BootstrapOf, ObjectReader, FileReader, EventReader;
    ObjectsDelivered(p, m, g);
    OrderlyIds(g);
    FilesDelivered(p, m, g);
    EventsDelivered(p, m, g);
    ListsMatch(p, m, g);
    DeliveredInstalls(m, ObjectParcels(p, g.rows), ObjectReader(p), BootstrapOf(p, g).objects);
    DeliveredInstalls(m, FileParcels(p, g.rows), FileReader(p), BootstrapOf(p, g).files);
    DeliveredInstalls(m, EventParcels(p, g.events), EventReader(p), BootstrapOf(p, g).events);
  }

  lemma OrderlyIds(g: Gathered)
    requires Orderly(g)
    ensures IdsDistinct(g.rows)
  {
  }

  lemma FilesInstalled(p: Profile, m: map<Bytes, Entry>, g: Gathered, b: Bootstrap, objects: map<Id, Bytes>,
      payloads: seq<Bytes>, files: map<Id, FileRecord>, records: seq<FileRecord>)
    requires Delivered(m, ObjectParcels(p, g.rows), ObjectReader(p))
      && Delivered(m, FileParcels(p, g.rows), FileReader(p))
    requires Lists(b.objects, ObjectParcels(p, g.rows)) && Lists(b.files, FileParcels(p, g.rows))
    requires Installs(m, b.objects, ObjectReader(p), objects, payloads)
      && Installs(m, b.files, FileReader(p), files, records)
    ensures RowsHeld(g, Store(objects, files, map[], map[], map[]))
  {
    hide Delivered, Lists, Installs, ObjectReader, FileReader;
    InstalledAre(m, ObjectParcels(p, g.rows), ObjectReader(p), b.objects, objects, payloads);
    InstalledAre(m, FileParcels(p, g.rows), FileReader(p), b.files, files, records);
    forall i | 0 <= i < |g.rows|
      ensures g.rows[i].record.id in files && files[g.rows[i].record.id] == g.rows[i].record
      ensures g.rows[i].record.basis.objectId in objects
        && objects[g.rows[i].record.basis.objectId] == g.rows[i].payload
    {
      assert ObjectParcels(p, g.rows)[i].id == g.rows[i].record.basis.objectId;
      assert FileParcels(p, g.rows)[i].id == g.rows[i].record.id;
    }
  }

  function KeyedSnapshots(c: Id, snapshots: map<Id, Snapshot>): map<SnapshotKey, Snapshot> {
    map s | s in snapshots :: SnapshotKey(c, s) := snapshots[s]
  }

  lemma BootstrapNames(p: Profile, g: Gathered)
    ensures BootstrapOf(p, g).run == g.run.id && BootstrapOf(p, g).collection == g.run.basis.collection
  {
  }

  /** The descriptor and the snapshots are in the bundle, the run's own snapshot among them. */
  ghost predicate CollectionThere(p: Profile, m: map<Bytes, Entry>, b: Bootstrap, ref: CollectionRef) {
    var at, listed := p.path(DescriptorPlace(ref.collection)), OnlySnapshots(p, b.collections);
    && at in m && p.read(m[at].data).Some? && p.read(m[at].data).value.DescriptorJson?
    && p.read(m[at].data).value.descriptor.id == ref.collection
    && Installable(m, listed, SnapshotReader(p))
    && exists i: nat :: i < |listed| && Got(m, listed, SnapshotReader(p), i).0 == ref.snapshot
  }

  /** The store `t` with this Collection, its listed snapshots, and HEAD at the run's snapshot. */
  ghost predicate WithCollection(p: Profile, m: map<Bytes, Entry>, b: Bootstrap, ref: CollectionRef, t: Store,
      t': Store)
    requires CollectionThere(p, m, b, ref)
  {
    var d := p.read(m[p.path(DescriptorPlace(ref.collection))].data).value.descriptor;
    exists snapshots, list ::
      && Installs(m, OnlySnapshots(p, b.collections), SnapshotReader(p), snapshots, list)
      && t' == t.(collections := map[ref.collection := d], snapshots := KeyedSnapshots(ref.collection, snapshots),
                  heads := map[ref.collection := ref.snapshot])
  }

  lemma InstalledNames<V>(m: map<Bytes, Entry>, paths: seq<Bytes>, reader: (Bytes, Bytes) -> Option<(Id, V)>,
      target: map<Id, V>, list: seq<V>, k: Id)
    requires Installs(m, paths, reader, target, list)
    ensures k in target <==> exists i: nat :: i < |paths| && Got(m, paths, reader, i).0 == k
  {
  }

  lemma PresentFirst<V>(m: map<Bytes, Entry>, paths: seq<Bytes>, reader: (Bytes, Bytes) -> Option<(Id, V)>)
    ensures Installable(m, paths, reader) ==> Present(m, paths, reader)
  {
  }

  /** The Collection the run is bound to: succeeds exactly when it is there, and adds just it. */
  method RestoreCollection(p: Profile, m: map<Bytes, Entry>, b: Bootstrap, t: Store, ghost g: Gathered)
      returns (r: Result<Store, Error>)
    requires p.Sound()
    ensures b == BootstrapOf(p, g) && Ready(p, m, g) && CollectionGathered(g) ==> r.Ok? && ChainHeld(g, r.value)
    ensures r.Ok? <==> (b.collection.Some? ==> CollectionThere(p, m, b, b.collection.value))
    ensures r.Ok? && b.collection.None? ==> r.value == t
    ensures r.Ok? && b.collection.Some? ==> WithCollection(p, m, b, b.collection.value, t, r.value)
    ensures r.Ok? ==> r.value.files == t.files && r.value.objects == t.objects
    ensures r.Ok? && b.collection.Some? ==>
      b.collection.value.collection in r.value.heads
        && r.value.heads[b.collection.value.collection] == b.collection.value.snapshot
  {
    hide Ready, Delivered, Lists, Installable, Installs, SnapshotReader, Profile.Sound, OnlySnapshots, BootstrapOf,
      ChainHeld, CollectionGathered;
    ghost var good := b == BootstrapOf(p, g) && Ready(p, m, g) && CollectionGathered(g);
    BootstrapNames(p, g);
    if b.collection.None? {
      if good { NothingToHold(g, t); }
      return Ok(t);
    }
    var ref := b.collection.value;
    var at := p.path(DescriptorPlace(ref.collection));
    if good { CollectionReady(p, m, g); }
    if at !in m {
      return Err(WrongCollection);
    }
    var descriptor := p.read(m[at].data);
    if descriptor.None? || !descriptor.value.DescriptorJson? || descriptor.value.descriptor.id != ref.collection {
      return Err(WrongCollection);
    }
    var listed := OnlySnapshots(p, b.collections);
    var snapshots := Install(m, listed, SnapshotReader(p));
    if snapshots.None? {
      return Err(WrongCollection);
    }
    PresentFirst(m, listed, SnapshotReader(p));
    InstalledNames(m, listed, SnapshotReader(p), snapshots.value.0, snapshots.value.1, ref.snapshot);
    if good { SnapshotsInstalled(p, m, g, listed, snapshots.value.0, snapshots.value.1); }
    if ref.snapshot !in snapshots.value.0 {
      return Err(WrongCollection);
    }
    var next := t.(collections := map[ref.collection := descriptor.value.descriptor],
                   snapshots := KeyedSnapshots(ref.collection, snapshots.value.0),
                     heads := map[ref.collection := ref.snapshot]);
    if good { CollectionHeld(g, t, snapshots.value.0); }
    r := Ok(next);
  }

  lemma NothingToHold(g: Gathered, t: Store)
    requires g.run.basis.collection.None?
    ensures ChainHeld(g, t)
  {
  }

  lemma CollectionHeld(g: Gathered, t: Store, snapshots: map<Id, Snapshot>)
    requires g.run.basis.collection.Some? && CollectionGathered(g)
    requires forall i :: 0 <= i < |g.chain| ==> g.chain[i].id in snapshots && snapshots[g.chain[i].id] == g.chain[i]
    ensures
      var ref := g.run.basis.collection.value;
      ChainHeld(g, t.(collections := map[ref.collection := g.descriptor.value],
                      snapshots := KeyedSnapshots(ref.collection, snapshots),
                        heads := map[ref.collection := ref.snapshot]))
  {
  }

  /** The run's Collection and the chain that ends at its snapshot. */
  ghost predicate CollectionGathered(g: Gathered) {
    match g.run.basis.collection
    case None => true
    case Some(ref) =>
      g.descriptor.Some? && g.descriptor.value.id == ref.collection
      && g.chain != [] && g.chain[|g.chain| - 1].id == ref.snapshot
  }

  lemma CollectionReady(p: Profile, m: map<Bytes, Entry>, g: Gathered)
    requires p.Sound() && Ready(p, m, g) && g.run.basis.collection.Some? && CollectionGathered(g)
    ensures
      var c := g.run.basis.collection.value.collection;
      && g.descriptor.Some? && g.descriptor.value.id == c && p.path(DescriptorPlace(c)) in m
      && p.read(m[p.path(DescriptorPlace(c))].data) == Some(DescriptorJson(g.descriptor.value))
      && Delivered(m, SnapshotParcels(p, c, g.chain), SnapshotReader(p))
      && Lists(OnlySnapshots(p, BootstrapOf(p, g).collections), SnapshotParcels(p, c, g.chain))
      && Installable(m, OnlySnapshots(p, BootstrapOf(p, g).collections), SnapshotReader(p))
  {
    hide BundleHere, Delivered, Lists, Installable, Profile.Sound, BootstrapOf, SnapshotReader, OnlySnapshots;
    DescriptorHere(p, m, g);
    ReadsBack(p, LatticePlace, DescriptorJson(g.descriptor.value));
    SnapshotsDelivered(p, m, g);
    SnapshotsListed(p, m, g);
    DeliveredInstalls(m, SnapshotParcels(p, g.descriptor.value.id, g.chain), SnapshotReader(p),
      OnlySnapshots(p, BootstrapOf(p, g).collections));
  }

  lemma SnapshotsInstalled(p: Profile, m: map<Bytes, Entry>, g: Gathered, listed: seq<Bytes>,
      snapshots: map<Id, Snapshot>, list: seq<Snapshot>)
    requires g.run.basis.collection.Some? && CollectionGathered(g)
    requires
      var parcels := SnapshotParcels(p, g.run.basis.collection.value.collection, g.chain);
      Delivered(m, parcels, SnapshotReader(p)) && Lists(listed, parcels)
        && Installs(m, listed, SnapshotReader(p), snapshots, list)
    ensures forall i :: 0 <= i < |g.chain| ==> g.chain[i].id in snapshots && snapshots[g.chain[i].id] == g.chain[i]
    ensures g.run.basis.collection.value.snapshot in snapshots
  {
    hide Delivered, Lists, Installs, SnapshotReader;
    var c := g.run.basis.collection.value.collection;
    InstalledAre(m, SnapshotParcels(p, c, g.chain), SnapshotReader(p), listed, snapshots, list);
    forall i | 0 <= i < |g.chain| ensures g.chain[i].id in snapshots && snapshots[g.chain[i].id] == g.chain[i] {
      assert SnapshotParcels(p, c, g.chain)[i].id == g.chain[i].id;
    }
    assert g.chain[|g.chain| - 1].id in snapshots;
  }

  /** The run record is in the bundle under its name. */
  ghost predicate RunThere(p: Profile, m: map<Bytes, Entry>, b: Bootstrap) {
    var at := p.path(RunPlace(b.run));
    at in m && p.read(m[at].data).Some? && p.read(m[at].data).value.RunJson? && p.read(m[at].data).value.run.id == b.run
  }

  /** The log of the run record, its events, and the HEAD they imply. */
  ghost predicate LogThere(p: Profile, m: map<Bytes, Entry>, b: Bootstrap, l: Log) {
    && RunThere(p, m, b)
    && exists stored, ordered ::
      EventsThere(p, m, b, stored, ordered)
      && l == Log(map[b.run := p.read(m[p.path(RunPlace(b.run))].data).value.run], stored,
        map[b.run := Head(IdBefore(ordered, |ordered|), |ordered| - 1)])
  }

  /** Run record, events in sequence, and the HEAD they imply: answers exactly the log that is there. */
  method RestoreLog(p: Profile, m: map<Bytes, Entry>, b: Bootstrap, ghost g: Gathered) returns (r: Result<Log, Error>)
    requires p.Sound()
    ensures forall l :: r == Ok(l) <==> LogThere(p, m, b, l)
    ensures b == BootstrapOf(p, g) && Ready(p, m, g) ==> r.Ok? && LogHeld(g, r.value)
  {
    hide EventsThere, Ready, Profile.Sound, BootstrapOf, LogHeld, EventsHere;
    ghost var good := b == BootstrapOf(p, g) && Ready(p, m, g);
    BootstrapNames(p, g);
    if good { RunReady(p, m, g); }
    var at := p.path(RunPlace(b.run));
    if at !in m {
      return Err(WrongRun);
    }
    var run := p.read(m[at].data);
    if run.None? || !run.value.RunJson? || run.value.run.id != b.run {
      return Err(WrongRun);
    }
    var events := RestoreEvents(p, m, b, g);
    if events.None? {
      return Err(WrongEvents);
    }
    var (stored, ordered) := events.value;
    if good { RunRestored(g, stored); }
    r := Ok(Log(map[b.run := run.value.run], stored, map[b.run := Head(IdBefore(ordered, |ordered|), |ordered| - 1)]));
  }

  ghost predicate EventsHere(g: Gathered, events: map<Id, Event>) {
    forall i :: 0 <= i < |g.events| ==> g.events[i].id in events && events[g.events[i].id] == g.events[i]
  }

  /** The listed events can be installed, and put in order they are numbered from zero without a gap. */
  ghost predicate EventsThere(p: Profile, m: map<Bytes, Entry>, b: Bootstrap, stored: map<Id, Event>,
      ordered: seq<Event>) {
    && Installable(m, b.events, EventReader(p))
    && (exists list ::
      Installs(m, b.events, EventReader(p), stored, list)
      && ordered == Sorting.SortBy(list, RunOps.SequenceKey()))
    && forall i :: 0 <= i < |ordered| ==> ordered[i].basis.sequence == i
  }

  lemma InstallsUnique<V>(m: map<Bytes, Entry>, paths: seq<Bytes>, reader: (Bytes, Bytes) -> Option<(Id, V)>,
      a: map<Id, V>, la: seq<V>, b: map<Id, V>, lb: seq<V>)
    requires Installs(m, paths, reader, a, la) && Installs(m, paths, reader, b, lb)
    ensures a == b && la == lb
  {
    forall k | k in a ensures k in b && b[k] == a[k] {
      var i: nat :| i < |paths| && Got(m, paths, reader, i).0 == k;
    }
    forall k | k in b ensures k in a {
      var i: nat :| i < |paths| && Got(m, paths, reader, i).0 == k;
    }
  }

  lemma EventsThereOnce(p: Profile, m: map<Bytes, Entry>, b: Bootstrap, stored: map<Id, Event>, list: seq<Event>)
    requires Installable(m, b.events, EventReader(p)) && Installs(m, b.events, EventReader(p), stored, list)
    ensures
      var ordered := Sorting.SortBy(list, RunOps.SequenceKey());
      forall s, o :: EventsThere(p, m, b, s, o) <==>
        s == stored && o == ordered && forall i :: 0 <= i < |ordered| ==> ordered[i].basis.sequence == i
  {
    hide Installable, Installs, Sorting.SortBy, EventReader;
    forall s, l | Installs(m, b.events, EventReader(p), s, l) ensures s == stored && l == list {
      InstallsUnique(m, b.events, EventReader(p), s, l, stored, list);
    }
  }

  lemma NoEventsThere(p: Profile, m: map<Bytes, Entry>, b: Bootstrap)
    requires !Installable(m, b.events, EventReader(p))
    ensures forall s, o :: !EventsThere(p, m, b, s, o)
  {
  }

  /** The event files, and the events in contiguous sequence: answers exactly what is there. */
  method RestoreEvents(p: Profile, m: map<Bytes, Entry>, b: Bootstrap, ghost g: Gathered)
      returns (r: Option<(map<Id, Event>, seq<Event>)>)
    requires p.Sound()
    ensures forall stored, ordered :: r == Some((stored, ordered)) <==> EventsThere(p, m, b, stored, ordered)
    ensures b == BootstrapOf(p, g) && Ready(p, m, g) ==> r.Some? && EventsHere(g, r.value.0) && r.value.1 == g.events
  {
    hide EventsThere, Sorting.SortBy, Ready, Delivered, Lists, Installable, Installs, EventReader, Profile.Sound,
      BootstrapOf, EventsHere;
    ghost var good := b == BootstrapOf(p, g) && Ready(p, m, g);
    if good {
      FilesReady(p, m, g);
      RunReady(p, m, g);
    }
    var events := Install(m, b.events, EventReader(p));
    if events.None? {
      NoEventsThere(p, m, b);
      return None;
    }
    EventsThereOnce(p, m, b, events.value.0, events.value.1);
    var ordered := Sorting.SortBy(events.value.1, RunOps.SequenceKey());
    if good { EventsInstalled(p, m, g, b.events, events.value.0, events.value.1); }
    if exists i :: 0 <= i < |ordered| && ordered[i].basis.sequence != i {
      return None;
    }
    r := Some((events.value.0, ordered));
  }

  lemma RunReady(p: Profile, m: map<Bytes, Entry>, g: Gathered)
    requires p.Sound() && Ready(p, m, g)
    ensures p.path(RunPlace(g.run.id)) in m && p.read(m[p.path(RunPlace(g.run.id))].data) == Some(RunJson(g.run))
      && Orderly(g)
  {
    BootstrapHere(p, m, g);
  }

  lemma RunRestored(g: Gathered, events: map<Id, Event>)
    requires EventsHere(g, events)
    ensures LogHeld(g, Log(map[g.run.id := g.run], events,
      map[g.run.id := Head(IdBefore(g.events, |g.events|), |g.events| - 1)]))
  {
  }

  lemma EventsInstalled(p: Profile, m: map<Bytes, Entry>, g: Gathered, listed: seq<Bytes>, events: map<Id, Event>,
      list: seq<Event>)
    requires Orderly(g) && Delivered(m, EventParcels(p, g.events), EventReader(p))
      && Lists(listed, EventParcels(p, g.events))
    requires Installs(m, listed, EventReader(p), events, list)
    ensures EventsHere(g, events)
    ensures Sorting.SortBy(list, RunOps.SequenceKey()) == g.events
    ensures forall i :: 0 <= i < |g.events| ==> g.events[i].basis.sequence == i
  {
    hide Delivered, Lists, Installs, EventReader, EventParcels, Orderly, Chained, Distinct, Sorting.SortBy;
    InstalledAre(m, EventParcels(p, g.events), EventReader(p), listed, events, list);
    ParcelsHere(p, g, events);
    OrderlyChain(g);
    SequencesInOrder(g.run.id, g.events);
    ParcelsMatch(p, g.events);
    ListedOnce(m, EventParcels(p, g.events), EventReader(p), listed, events, list, g.events);
    SortedBack(g.events, list);
  }

  lemma ParcelsHere(p: Profile, g: Gathered, events: map<Id, Event>)
    requires
      var parcels := EventParcels(p, g.events);
      forall i :: 0 <= i < |parcels| ==> parcels[i].id in events && events[parcels[i].id] == parcels[i].value
    ensures EventsHere(g, events)
  {
    ParcelsMatch(p, g.events);
  }

  lemma ParcelsMatch(p: Profile, es: seq<Event>)
    ensures
      var parcels := EventParcels(p, es);
      |parcels| == |es| && forall i :: 0 <= i < |es| ==> parcels[i].id == es[i].id && es[i] == parcels[i].value
  {
  }

  lemma OrderlyChain(g: Gathered)
    requires Orderly(g)
    ensures Chained(g.run.id, g.events)
  {
  }

  /** A history sorted by sequence number is back in its own order. */
  lemma SortedBack(es: seq<Event>, list: seq<Event>)
    requires multiset(list) == multiset(es)
    requires Sorting.SortedBy(es, RunOps.SequenceKey()) && Sorting.KeysDistinct(es, RunOps.SequenceKey())
    ensures Sorting.SortBy(list, RunOps.SequenceKey()) == es
  {
    Sorting.KeysDistinctByMultiset(es, list, RunOps.SequenceKey());
    Sorting.SortPermutation(list, es, RunOps.SequenceKey());
    Sorting.SortIdempotent(es, RunOps.SequenceKey());
  }

  lemma SequencesInOrder(run: Id, es: seq<Event>)
    requires Chained(run, es)
    ensures Sorting.SortedBy(es, RunOps.SequenceKey()) && Sorting.KeysDistinct(es, RunOps.SequenceKey())
    ensures (forall i :: 0 <= i < |es| ==> es[i].basis.sequence == i) && Distinct(es)
  {
    assert Distinct(es) by { assert forall i, j :: 0 <= i < j < |es| ==> es[i].basis.sequence != es[j].basis.sequence; }
    forall i, j | 0 <= i < j < |es| ensures RunOps.SequenceKey()(es[i]) != RunOps.SequenceKey()(es[j]) {
      assert RunOps.SequenceKey()(es[i])[0] == i && RunOps.SequenceKey()(es[j])[0] == j;
    }
  }

  /** `verify_run` and the lineage walk on the new store. */
  method VerifyRestored(h: RunHashes, t: Store, l: Log, run: Id) returns (fingerprint: Option<Id>)
    ensures fingerprint.Some? <==> VerifyRunAccepts(h, t, l, run)
    ensures fingerprint.Some? ==> fingerprint.value == RunTransfer.Fingerprint(h, l.runs[run],
      History(h, t, l, run).value)
  {
    hide RunValid, Verifies, AtHead;
    if !HasRun(h, t, l, run) || run !in l.heads {
      return None;
    }
    var events := RunLoops.ListEventsFromHead(h, t, l.events, run, l.heads[run]);
    if events.None? {
      return None;
    }
    HeadHistoryUnique(h, t, l, run);
    var ok := RunLoops.VerifySnapshot(h, t, l.runs[run], events.value);
    if !ok {
      return None;
    }
    fingerprint := Some(RunTransfer.Fingerprint(h, l.runs[run], events.value));
  }

  lemma HeadHistoryUnique(h: RunHashes, t: Store, l: Log, run: Id)
    requires History(h, t, l, run).Some?
    ensures UniqueIds(History(h, t, l, run).value)
  {
    BackChained(h, t, l.events, run, l.heads[run].event, l.heads[run].sequence + 1);
    HistoryIdsDistinct(h, t, l.events, run, History(h, t, l, run).value);
  }

  // ----- the whole reconstruction -----

  /** The bundle was built from this run of a reachable store. */
  ghost predicate FromStore(p: Profile, v: Store, log: Log, g: Gathered, capsule: Bytes) {
    && Bundled(p, v, log, g.run.id, g, capsule) && RunPlans.LogInv(p.h, v, log) && StoreSound(p.h.store, v)
  }

  /** What a faithful copy has: the same run with the same history and fingerprint, HEAD at the run's own
      snapshot, and below it the whole chain to revision 0. */
  ghost predicate Faithful(p: Profile, g: Gathered, out: Restored) {
    && out.run == g.run.id && g.run.id in out.log.runs && out.log.runs[g.run.id] == g.run
    && VerifyRunAccepts(p.h, out.store, out.log, g.run.id)
      && History(p.h, out.store, out.log, g.run.id) == Some(g.events)
    && match g.run.basis.collection
       case None => true
       case Some(ref) =>
         && ref.collection in out.store.heads && out.store.heads[ref.collection] == ref.snapshot
         && LineageOf(p.h.store, out.store, ref) == Some(g.chain)
  }

  lemma SentIsReady(p: Profile, v: Store, log: Log, g: Gathered, capsule: Bytes, m: map<Bytes, Entry>)
    requires p.Sound() && FromStore(p, v, log, g, capsule) && BundleHere(p, m, g)
    ensures Ready(p, m, g) && CollectionGathered(g)
  {
    hide BundleHere, BundleEntries, RunPlans.LogInv, History, VerifyRunAccepts, StoreSound, BoundFiles, WithinCapsule;
    GatheredIsOrderly(p.h, v, log, g.run.id, g);
    GatheredChain(p.h, v, log, g.run.id, g);
    HistoryIdsDistinct(p.h, v, log.events, g.run.id, g.events);
    BundleSucceedsIff(p, g);
    PayloadsAreNamed(p.h, v, log, g);
    if g.run.basis.collection.Some? { ChainEnds(p.h, v, log, g); }
  }

  lemma PayloadsAreNamed(h: RunHashes, v: Store, log: Log, g: Gathered)
    requires StoreSound(h.store, v) && Gathers(h, v, log, g.run.id, g)
    ensures PayloadsNamed(h, g.rows)
  {
    hide History, VerifyRunAccepts, BoundFiles, LineageOf;
    var ids := Collections.Ascending(BoundFiles(v, g.run, g.events));
    forall i | 0 <= i < |g.rows| ensures h.store.content(g.rows[i].payload) == g.rows[i].record.basis.objectId {
      assert RowIs(h, v, ids[i], g.rows[i]);
    }
  }

  lemma ChainEnds(h: RunHashes, v: Store, log: Log, g: Gathered)
    requires RunPlans.LogInv(h, v, log) && Gathers(h, v, log, g.run.id, g) && g.run.basis.collection.Some?
    ensures CollectionGathered(g)
  {
    hide RunPlans.LogInv, History, VerifyRunAccepts, BoundFiles, RowsAre;
    GatheredChain(h, v, log, g.run.id, g);
    var ref := g.run.basis.collection.value;
    var n := v.snapshots[SnapshotKey(ref.collection, ref.snapshot)].basis.revision;
    Collections.LineageConsecutive(h.store, v.snapshots, ref.collection, ref.snapshot, n);
  }

  /** `_reconstruct`.  A bundle built from a reachable store is always accepted and gives a faithful copy;
      and whatever is accepted verifies under the fingerprint the bundle declares. */
  method Reconstruct(p: Profile, capsule: Bytes, ghost g: Gathered, ghost v: Store, ghost log: Log)
      returns (r: Result<Restored, Error>)
    requires p.Sound()
    ensures FromStore(p, v, log, g, capsule) ==> r.Ok? && Faithful(p, g, r.value)
    ensures r.Ok? ==> VerifyRunAccepts(p.h, r.value.store, r.value.log, r.value.run)
    ensures r.Ok? && Packs(p, g, capsule) ==>
      r.value.log.runs[r.value.run] == g.run && History(p.h, r.value.store, r.value.log, r.value.run) == Some(g.events)
  {
    hide BundleHere, BundleEntries, FromStore, Ready, VerifyRunAccepts, RowsHeld, ChainHeld, LogHeld, History,
      LineageOf, Packs, Profile.Sound;
    hide HasSnapshot, CollectionGathered, RunTransfer.Fingerprint, Items;
    ghost var good := FromStore(p, v, log, g, capsule);
    if good { SentPacks(p, v, log, g, capsule); }
    var bundle := OpenBundle(p, capsule, g);
    if bundle.Err? {
      return Err(bundle.error);
    }
    var (b, m) := bundle.value;
    if good { SentIsReady(p, v, log, g, capsule, m); }
    var files := RestoreFiles(p, m, b, g);
    if files.Err? {
      return Err(files.error);
    }
    var store := RestoreCollection(p, m, b, files.value, g);
    if store.Err? {
      return Err(store.error);
    }
    var l := RestoreLog(p, m, b, g);
    if l.Err? {
      return Err(l.error);
    }
    if good { CopyIsFaithful(p, v, log, g, capsule, files.value, store.value, l.value); }
    var fingerprint := VerifyRestored(p.h, store.value, l.value, b.run);
    if fingerprint.None? {
      return Err(NotVerified);
    }
    if b.collection.Some? {
      var chain := SnapshotChain(p.h.store, store.value, b.collection.value);
      if chain.None? {
        return Err(BrokenLineage);
      }
    }
    if fingerprint.value != b.fingerprint {
      return Err(WrongFingerprint);
    }
    if Packs(p, g, capsule) { SameFingerprint(p, b.run, store.value, l.value, g); }
    r := Ok(Restored(b.run, store.value, l.value));
  }

  lemma ValidIsSound(store: IS.InteractionStore)
    requires store.Valid()
    ensures SoundState(store.h, store.storage.Contents(), store.Records())
    ensures StoreSound(store.h.store, store.storage.Contents())
  {
    hide RunPlans.LogInv, StoreSound;
  }

  /** `build_ark_bundle` and then `restore_ark_bundle`: for every run of every reachable store the journey
      succeeds exactly when the run is unlocked, verifies and can be bundled, and what arrives is faithful. */
  method CarryRun(p: Profile, store: IS.InteractionStore, run: Id) returns (r: Result<Restored, Error>)
    requires p.Sound() && p.h == store.h && store.Valid()
    modifies store`locks
    ensures store.locks == old(store.locks) && SoundState(p.h, store.storage.Contents(), store.Records())
    ensures
      var v, log := store.storage.Contents(), store.Records();
      && (r.Ok? <==> run !in store.locks && VerifyRunAccepts(p.h, v, log, run) && Bundleable(p, v, log, run))
      && (r.Ok? ==> Faithful(p, GatheredOf(p.h, v, log, run), r.value))
  {
    hide SoundState, VerifyRunAccepts, Bundleable, Bundled, Faithful, FromStore, Profile.Sound;
    ghost var v, log := store.storage.Contents(), store.Records();
    ValidIsSound(store);
    var capsule := BuildArkBundle(p, store, run);
    assert store.storage.Contents() == v && store.Records() == log;
    if capsule.Err? {
      return Err(capsule.error);
    }
    ghost var g := GatheredOf(p.h, v, log, run);
    BundledIsFromStore(p, v, log, run, g, capsule.value);
    r := Reconstruct(p, capsule.value, g, v, log);
    assert store.storage.Contents() == v && store.Records() == log;
  }

  lemma BundledIsFromStore(p: Profile, v: Store, log: Log, run: Id, g: Gathered, capsule: Bytes)
    requires p.Sound() && SoundState(p.h, v, log) && StoreSound(p.h.store, v) && Bundled(p, v, log, run, g, capsule)
    ensures FromStore(p, v, log, g, capsule)
  {
    hide RunPlans.LogInv, StoreSound, Collections.CollectionsInv, BundleEntries, Gathers, Orderly;
    assert Gathers(p.h, v, log, run, g);
    GatheredIsOrderly(p.h, v, log, run, g);
  }

  lemma SentPacks(p: Profile, v: Store, log: Log, g: Gathered, capsule: Bytes)
    requires FromStore(p, v, log, g, capsule)
    ensures Packs(p, g, capsule)
  {
  }

  /** Equal fingerprints are equal runs, so an accepted bundle of `g` can only restore `g`. */
  lemma SameFingerprint(p: Profile, run: Id, t: Store, l: Log, g: Gathered)
    requires p.Sound() && VerifyRunAccepts(p.h, t, l, run)
    requires RunTransfer.Fingerprint(p.h, l.runs[run], History(p.h, t, l, run).value) == RunTransfer.Fingerprint(p.h,
      g.run, g.events)
    ensures l.runs[run] == g.run && History(p.h, t, l, run) == Some(g.events)
  {
    hide RunTransfer.Fingerprint, History, Verifies;
    RunTransfer.FingerprintIdentifies(p.h, l.runs[run], History(p.h, t, l, run).value, g.run, g.events);
  }

  lemma CopyIsFaithful(p: Profile, v: Store, log: Log, g: Gathered, capsule: Bytes, files: Store, t: Store, l: Log)
    requires FromStore(p, v, log, g, capsule) && RowsHeld(g, files) && t.files == files.files
      && t.objects == files.objects
    requires ChainHeld(g, t) && LogHeld(g, l)
    ensures Faithful(p, g, Restored(g.run.id, t, l))
    ensures g.run.basis.collection.Some? ==>
      HasSnapshot(p.h.store, t, g.run.basis.collection.value.collection, g.run.basis.collection.value.snapshot)
  {
    hide BundleEntries, RunPlans.LogInv, Gathers, VerifyRunAccepts, History, LineageOf, StoreSound, HasSnapshot;
    assert RowsHeld(g, t);
    HeldVerifies(p.h, v, log, g, t, l);
    if g.run.basis.collection.Some? { SnapshotHeld(p.h, v, log, g, t); }
  }
}
