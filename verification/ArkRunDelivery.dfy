/** What a one-run recovery bundle delivers: every gathered record, under a path its bootstrap lists
    (`storage/ark_recovery_bundle.py`). */
module ArkRunDelivery {
  import opened Common
  import opened Vault
  import opened RunLog
  import opened ArkRunBundle
  import opened ArkRunBuild
  import opened ArkRunInstall
  import ArkPackage
  import Capsule = RestoreCapsule

  function AllItems(p: Profile, g: Gathered): seq<Item> {
    Items(p, g) + [BootstrapItem(p, g)]
  }

  ghost predicate ItemHere(p: Profile, m: map<Bytes, Entry>, x: Item) {
    p.path(x.place) in m && m[p.path(x.place)].data == x.data
  }

  ghost predicate BundleHere(p: Profile, m: map<Bytes, Entry>, g: Gathered) {
    forall x :: x in AllItems(p, g) ==> ItemHere(p, m, x)
  }

  lemma IndexedIsHere(p: Profile, m: map<Bytes, Entry>, g: Gathered)
    requires ArkPackage.Indexes(m, BundleEntries(p, g))
    ensures BundleHere(p, m, g)
  {
    hide Items, BootstrapItem;
    var items, es := AllItems(p, g), BundleEntries(p, g);
    EntriesBuilt(p, g);
    forall x | x in items ensures ItemHere(p, m, x) {
      var i :| 0 <= i < |items| && items[i] == x;
      assert es[i] == EntryFor(p, x);
      assert es[i] in es;
    }
  }

  function ObjectReader(p: Profile): (Bytes, Bytes) -> Option<(Id, Bytes)> {
    (b, data) =>
      match p.name(b)
      case ObjectPlace(d) => if p.h.store.content(data) == d then Some((d, data)) else None
      case _ => None
  }

  function FileReader(p: Profile): (Bytes, Bytes) -> Option<(Id, FileRecord)> {
    (b, data) =>
      match p.read(data)
      case Some(FileJson(f)) => if p.name(b) == FilePlace(f.id) then Some((f.id, f)) else None
      case _ => None
  }

  function SnapshotReader(p: Profile): (Bytes, Bytes) -> Option<(Id, Snapshot)> {
    (b, data) => match p.read(data) case Some(SnapshotJson(s)) => Some((s.id, s)) case _ => None
  }

  function EventReader(p: Profile): (Bytes, Bytes) -> Option<(Id, Event)> {
    (b, data) => match p.read(data) case Some(EventJson(e)) => Some((e.id, e)) case _ => None
  }

  function ObjectParcels(p: Profile, rows: seq<FileRow>): seq<Parcel<Bytes>> {
    seq(|rows|, i requires 0 <= i < |rows| => Parcel(p.path(ObjectPlace(rows[i].record.basis.objectId)),
      rows[i].record.basis.objectId, rows[i].payload))
  }

  function FileParcels(p: Profile, rows: seq<FileRow>): seq<Parcel<FileRecord>> {
    seq(|rows|, i requires 0 <= i < |rows| => Parcel(p.path(FilePlace(rows[i].record.id)), rows[i].record.id,
      rows[i].record))
  }

  function SnapshotParcels(p: Profile, c: Id, chain: seq<Snapshot>): seq<Parcel<Snapshot>> {
    seq(|chain|, i requires 0 <= i < |chain| => Parcel(p.path(SnapshotPlace(c, chain[i].id)), chain[i].id, chain[i]))
  }

  function EventParcels(p: Profile, es: seq<Event>): seq<Parcel<Event>> {
    seq(|es|, i requires 0 <= i < |es| => Parcel(p.path(EventPlace(es[i].basis.sequence, es[i].id)), es[i].id, es[i]))
  }

  lemma {:induction false} RowItems(p: Profile, rows: seq<FileRow>, i: nat)
    requires i < |rows|
    ensures
      var row := rows[i];
      && Item(FilePlace(row.record.id), p.write(FileJson(row.record)), row.record.basis.privacy,
        Capsule.MidShell) in FileItems(p, rows)
      && Item(ObjectPlace(row.record.basis.objectId), row.payload, row.record.basis.privacy,
        Capsule.OuterShell) in FileItems(p, rows)
  {
    if i < |rows| - 1 {
      RowItems(p, rows[..|rows| - 1], i);
    }
  }

  lemma PartsIn(p: Profile, g: Gathered)
    ensures forall x ::
      x in EventItems(p, g.events, ClassOf(g)) || x in FileItems(p, g.rows)
      || x in CollectionItems(p, g.descriptor, g.chain)
      ==> x in AllItems(p, g)
    ensures Item(RunPlace(g.run.id), p.write(RunJson(g.run)), ClassOf(g), Capsule.NearShell) in AllItems(p, g)
    ensures Item(LatticePlace, p.write(LatticeJson), Internal, Capsule.NearShell) in AllItems(p, g)
    ensures BootstrapItem(p, g) in AllItems(p, g)
  {
    hide EventItems, FileItems, CollectionItems, ClassOf, BootstrapItem;
  }

  /** Raw objects hash to their names, as in every sound store. */
  ghost predicate PayloadsNamed(h: RunHashes, rows: seq<FileRow>) {
    forall i :: 0 <= i < |rows| ==> h.store.content(rows[i].payload) == rows[i].record.basis.objectId
  }

  lemma PathInjective(p: Profile, a: Place, b: Place)
    requires p.Sound()
    ensures p.path(a) == p.path(b) <==> a == b
  {
    assert p.name(p.path(a)) == a && p.name(p.path(b)) == b;
  }

  lemma ReadsBack(p: Profile, x: Place, j: Json)
    requires p.Sound()
    ensures p.name(p.path(x)) == x && p.read(p.write(j)) == Some(j)
  {
  }

  lemma RowHere(p: Profile, m: map<Bytes, Entry>, g: Gathered, i: nat)
    requires BundleHere(p, m, g) && i < |g.rows|
    ensures
      var row := g.rows[i];
      var f, o := p.path(FilePlace(row.record.id)), p.path(ObjectPlace(row.record.basis.objectId));
      f in m && o in m && m[f].data == p.write(FileJson(row.record)) && m[o].data == row.payload
  {
    hide AllItems, FileItems;
    var row := g.rows[i];
    PartsIn(p, g);
    RowItems(p, g.rows, i);
    assert ItemHere(p, m, Item(FilePlace(row.record.id), p.write(FileJson(row.record)), row.record.basis.privacy,
      Capsule.MidShell));
    assert ItemHere(p, m, Item(ObjectPlace(row.record.basis.objectId), row.payload, row.record.basis.privacy,
      Capsule.OuterShell));
  }

  lemma ObjectsDelivered(p: Profile, m: map<Bytes, Entry>, g: Gathered)
    requires p.Sound() && BundleHere(p, m, g) && ObjectsDistinct(g.rows) && PayloadsNamed(p.h, g.rows)
    ensures Delivered(m, ObjectParcels(p, g.rows), ObjectReader(p))
  {
    hide BundleHere, Profile.Sound;
    var rows, parcels := g.rows, ObjectParcels(p, g.rows);
    forall i | 0 <= i < |parcels|
      ensures parcels[i].path in m && ObjectReader(p)(parcels[i].path,
        m[parcels[i].path].data) == Some((parcels[i].id, parcels[i].value))
    {
      RowHere(p, m, g, i);
      ReadsBack(p, ObjectPlace(rows[i].record.basis.objectId), LatticeJson);
    }
    forall i, j | 0 <= i < j < |parcels| ensures parcels[i].path != parcels[j].path && parcels[i].id != parcels[j].id {
      PathInjective(p, ObjectPlace(rows[i].record.basis.objectId), ObjectPlace(rows[j].record.basis.objectId));
    }
  }

  lemma FilesDelivered(p: Profile, m: map<Bytes, Entry>, g: Gathered)
    requires p.Sound() && BundleHere(p, m, g) && IdsDistinct(g.rows)
    ensures Delivered(m, FileParcels(p, g.rows), FileReader(p))
  {
    hide BundleHere, Profile.Sound;
    var rows, parcels := g.rows, FileParcels(p, g.rows);
    forall i | 0 <= i < |parcels|
      ensures parcels[i].path in m && FileReader(p)(parcels[i].path,
        m[parcels[i].path].data) == Some((parcels[i].id, parcels[i].value))
    {
      RowHere(p, m, g, i);
      ReadsBack(p, FilePlace(rows[i].record.id), FileJson(rows[i].record));
    }
    forall i, j | 0 <= i < j < |parcels| ensures parcels[i].path != parcels[j].path && parcels[i].id != parcels[j].id {
      PathInjective(p, FilePlace(rows[i].record.id), FilePlace(rows[j].record.id));
    }
  }

  lemma EventHere(p: Profile, m: map<Bytes, Entry>, g: Gathered, i: nat)
    requires BundleHere(p, m, g) && i < |g.events|
    ensures
      var b := p.path(EventPlace(g.events[i].basis.sequence, g.events[i].id));
      b in m && m[b].data == p.write(EventJson(g.events[i]))
  {
    hide AllItems, ClassOf;
    PartsIn(p, g);
    assert EventItems(p, g.events, ClassOf(g))[i] == EventItem(p, g.events[i], ClassOf(g));
    assert ItemHere(p, m, EventItem(p, g.events[i], ClassOf(g)));
  }

  lemma EventsDelivered(p: Profile, m: map<Bytes, Entry>, g: Gathered)
    requires p.Sound() && BundleHere(p, m, g) && UniqueIds(g.events)
    ensures Delivered(m, EventParcels(p, g.events), EventReader(p))
  {
    hide BundleHere, Profile.Sound;
    var es, parcels := g.events, EventParcels(p, g.events);
    forall i | 0 <= i < |parcels|
      ensures parcels[i].path in m && EventReader(p)(parcels[i].path,
        m[parcels[i].path].data) == Some((parcels[i].id, parcels[i].value))
    {
      EventHere(p, m, g, i);
      ReadsBack(p, LatticePlace, EventJson(es[i]));
    }
    forall i, j | 0 <= i < j < |parcels| ensures parcels[i].path != parcels[j].path && parcels[i].id != parcels[j].id {
      PathInjective(p, EventPlace(es[i].basis.sequence, es[i].id), EventPlace(es[j].basis.sequence, es[j].id));
    }
  }

  lemma SnapshotHere(p: Profile, m: map<Bytes, Entry>, g: Gathered, i: nat)
    requires BundleHere(p, m, g) && g.descriptor.Some? && i < |g.chain|
    ensures
      var b := p.path(SnapshotPlace(g.descriptor.value.id, g.chain[i].id));
      b in m && m[b].data == p.write(SnapshotJson(g.chain[i]))
  {
    hide AllItems;
    PartsIn(p, g);
    assert CollectionItems(p, g.descriptor, g.chain)[i + 1] == SnapshotItem(p, g.descriptor.value, g.chain[i]);
    assert ItemHere(p, m, SnapshotItem(p, g.descriptor.value, g.chain[i]));
  }

  lemma DescriptorHere(p: Profile, m: map<Bytes, Entry>, g: Gathered)
    requires BundleHere(p, m, g) && g.descriptor.Some?
    ensures
      var b := p.path(DescriptorPlace(g.descriptor.value.id));
      b in m && m[b].data == p.write(DescriptorJson(g.descriptor.value))
  {
    hide AllItems;
    PartsIn(p, g);
    var x := CollectionItems(p, g.descriptor, g.chain)[0];
    assert x in CollectionItems(p, g.descriptor, g.chain) && ItemHere(p, m, x);
  }

  lemma SnapshotsDelivered(p: Profile, m: map<Bytes, Entry>, g: Gathered)
    requires p.Sound() && BundleHere(p, m, g) && Orderly(g) && g.descriptor.Some?
    ensures Delivered(m, SnapshotParcels(p, g.descriptor.value.id, g.chain), SnapshotReader(p))
  {
    hide BundleHere, Profile.Sound;
    var c, chain := g.descriptor.value.id, g.chain;
    var parcels := SnapshotParcels(p, c, chain);
    forall i | 0 <= i < |parcels|
      ensures parcels[i].path in m && SnapshotReader(p)(parcels[i].path,
        m[parcels[i].path].data) == Some((parcels[i].id, parcels[i].value))
    {
      SnapshotHere(p, m, g, i);
      ReadsBack(p, LatticePlace, SnapshotJson(chain[i]));
    }
    forall i, j | 0 <= i < j < |parcels| ensures parcels[i].path != parcels[j].path && parcels[i].id != parcels[j].id {
      PathInjective(p, SnapshotPlace(c, chain[i].id), SnapshotPlace(c, chain[j].id));
    }
  }

  /** The recorded path lists name exactly the parcels. */
  lemma ListsMatch(p: Profile, m: map<Bytes, Entry>, g: Gathered)
    requires Delivered(m, ObjectParcels(p, g.rows), ObjectReader(p))
      && Delivered(m, FileParcels(p, g.rows), FileReader(p))
    requires Delivered(m, EventParcels(p, g.events), EventReader(p))
    ensures Lists(BootstrapOf(p, g).objects, ObjectParcels(p, g.rows))
      && Lists(BootstrapOf(p, g).files, FileParcels(p, g.rows))
    ensures Lists(BootstrapOf(p, g).events, EventParcels(p, g.events))
  {
    hide ClassOf, Items, SortedPaths, ObjectReader, FileReader, EventReader;
    assert ParcelPaths(ObjectParcels(p, g.rows)) == ObjectPathsOf(p, g.rows);
    assert ParcelPaths(FileParcels(p, g.rows)) == FilePathsOf(p, g.rows);
    assert ParcelPaths(EventParcels(p, g.events)) == PathsOf(p, EventItems(p, g.events, ClassOf(g))) by {
      EventPathsMatch(p, g.events, ClassOf(g));
    }
    ParcelsListed(m, ObjectParcels(p, g.rows), ObjectReader(p));
    ParcelsListed(m, FileParcels(p, g.rows), FileReader(p));
    ParcelsListed(m, EventParcels(p, g.events), EventReader(p));
  }

  lemma EventPathsMatch(p: Profile, es: seq<Event>, privacy: Privacy)
    ensures ParcelPaths(EventParcels(p, es)) == PathsOf(p, EventItems(p, es, privacy))
  {
    forall i | 0 <= i < |es| ensures EventItems(p, es, privacy)[i] == EventItem(p, es[i], privacy) {}
  }

  lemma ParcelsListed<V>(m: map<Bytes, Entry>, parcels: seq<Parcel<V>>, reader: (Bytes, Bytes) -> Option<(Id, V)>)
    requires Delivered(m, parcels, reader)
    ensures Lists(SortedPaths(ParcelPaths(parcels)), parcels)
  {
    SortedPathsAre(ParcelPaths(parcels));
  }

  /** The paths that lie below a snapshots directory. */
  function OnlySnapshots(p: Profile, paths: seq<Bytes>): seq<Bytes> {
    if paths == [] then [] else
      OnlySnapshots(p, paths[..|paths| - 1])
      + (if p.name(paths[|paths| - 1]).SnapshotPlace? then [paths[|paths| - 1]] else [])
  }

  lemma {:induction false} OnlySnapshotsAre(p: Profile, paths: seq<Bytes>)
    ensures forall b :: b in OnlySnapshots(p, paths) <==> b in paths && p.name(b).SnapshotPlace?
    ensures Distinct(paths) ==> Distinct(OnlySnapshots(p, paths))
  {
    if paths != [] {
      var front, last := paths[..|paths| - 1], [paths[|paths| - 1]];
      OnlySnapshotsAre(p, front);
      assert paths == front + last;
      DistinctConcat(front, last);
      DistinctConcat(OnlySnapshots(p, front), last);
    }
  }

  lemma SnapshotsListed(p: Profile, m: map<Bytes, Entry>, g: Gathered)
    requires p.Sound() && g.descriptor.Some?
    requires Delivered(m, SnapshotParcels(p, g.descriptor.value.id, g.chain), SnapshotReader(p))
    ensures Lists(OnlySnapshots(p, BootstrapOf(p, g).collections), SnapshotParcels(p, g.descriptor.value.id, g.chain))
  {
    hide ClassOf, Items, SortedPaths, OnlySnapshots, SnapshotReader;
    var d, items := g.descriptor.value, CollectionItems(p, g.descriptor, g.chain);
    var paths, parcels := PathsOf(p, items), SnapshotParcels(p, d.id, g.chain);
    assert paths == [p.path(DescriptorPlace(d.id))] + ParcelPaths(parcels) by {
      forall i | 0 < i < |items| ensures items[i] == SnapshotItem(p, d, g.chain[i - 1]) {}
    }
    assert p.name(p.path(DescriptorPlace(d.id))) == DescriptorPlace(d.id);
    forall i | 0 <= i < |parcels| ensures p.name(ParcelPaths(parcels)[i]) == SnapshotPlace(d.id, g.chain[i].id) {}
    DistinctConcat([p.path(DescriptorPlace(d.id))], ParcelPaths(parcels));
    SortedPathsAre(paths);
    OnlySnapshotsAre(p, SortedPaths(paths));
  }
}
