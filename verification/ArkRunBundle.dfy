/** The one-run recovery bundle (`storage/ark_recovery_bundle.py`): what `build_ark_bundle` gathers,
    the entries it packs, and exactly when packing succeeds. */
module ArkRunBundle {
  import opened Common
  import opened Vault
  import opened RunLog
  import Capsule = RestoreCapsule
  import Collections
  import CS = ControlStore
  import RunOps
  import RunTransfer
  import Sorting
  import IS = InteractionStore

  const MAX_RECOVERY_FILES := 100_000

  type Entry = Capsule.Entry

  /** A path inside the bundle, taken apart. */
  datatype Place =
    | RunPlace(run: Id) | EventPlace(sequence: nat, event: Id) | FilePlace(file: Id) | ObjectPlace(digest: Id)
    | DescriptorPlace(collection: Id) | SnapshotPlace(owner: Id, snapshot: Id) | LatticePlace | BootstrapPlace
    | OtherPlace(name: Bytes)

  datatype Bootstrap = Bootstrap(
    run: Id, fingerprint: Id, privacy: Privacy, collection: Option<CollectionRef>,
    required: seq<Bytes>, events: seq<Bytes>, files: seq<Bytes>, objects: seq<Bytes>, collections: seq<Bytes>)

  /** A JSON document, by what it turns out to be. */
  datatype Json =
    | RunJson(run: Run) | EventJson(event: Event) | FileJson(file: FileRecord) | DescriptorJson(descriptor: Descriptor)
    | SnapshotJson(snapshot: Snapshot) | LatticeJson | BootstrapJson(bootstrap: Bootstrap) | OtherJson(text: string)

  datatype Profile = Profile(
    h: RunHashes, coder: Capsule.Coder, path: Place -> Bytes, name: Bytes -> Place, kind: Place -> string,
    write: Json -> Bytes, read: Bytes -> Option<Json>)
  {
    ghost predicate Sound() {
      && h.Sound() && coder.Sound()
      && (forall x :: name(path(x)) == x) && (forall b :: path(name(b)) == b)
      && (forall j :: read(write(j)) == Some(j))
    }
  }

  datatype Error =
    | NotVerified | BrokenLineage | TooManyFiles | CapsuleFailed(reason: Capsule.Error)
    | NoBootstrap | WrongEntrySet | NoLattice | WrongObject | WrongFile | WrongCollection | WrongRun | WrongEvents
    | WrongFingerprint

  // ----- the snapshot chain -----

  function LineageAt(h: Hashes, v: Store, c: Id, s: Id, n: int): Option<seq<Snapshot>> {
    if n < 0 then None else Collections.Lineage(h, v.snapshots, c, s, n)
  }

  /** The chain from revision 0 up to the snapshot a run is bound to. */
  function LineageOf(h: Hashes, v: Store, ref: CollectionRef): Option<seq<Snapshot>> {
    var key := SnapshotKey(ref.collection, ref.snapshot);
    if key in v.snapshots then LineageAt(h, v, ref.collection, ref.snapshot, v.snapshots[key].basis.revision) else None
  }

  function Backwards(ss: seq<Snapshot>): (r: seq<Snapshot>)
    ensures |r| == |ss|
  {
    if ss == [] then [] else [ss[|ss| - 1]] + Backwards(ss[..|ss| - 1])
  }

  ghost function ChainLeft(h: Hashes, v: Store, c: Id, s: Id, n: int, newest: seq<Snapshot>): Option<seq<Snapshot>> {
    match LineageAt(h, v, c, s, n)
    case None => None
    case Some(older) => Some(older + Backwards(newest))
  }

  lemma StepDown(h: Hashes, v: Store, c: Id, s: Id, n: int, newest: seq<Snapshot>)
    requires HasSnapshot(h, v, c, s)
    ensures
      var e := v.snapshots[SnapshotKey(c, s)];
      ChainLeft(h, v, c, s, n, newest) ==
        if e.basis.revision != n then None
        else match e.basis.previous
             case None => if n == 0 then Some(Backwards(newest + [e])) else None
             case Some(previous) => ChainLeft(h, v, c, previous, n - 1, newest + [e])
  {
    var e := v.snapshots[SnapshotKey(c, s)];
    assert (newest + [e])[..|newest|] == newest;
    if e.basis.revision == n && n > 0 && e.basis.previous.Some? {
      match LineageAt(h, v, c, e.basis.previous.value, n - 1)
      case None =>
      case Some(older) => assert older + [e] + Backwards(newest) == older + ([e] + Backwards(newest));
    }
  }

  lemma Unreadable(h: Hashes, v: Store, c: Id, s: Id, n: int, newest: seq<Snapshot>)
    requires HasCollection(h, v, c) && !HasSnapshot(h, v, c, s)
    ensures ChainLeft(h, v, c, s, n, newest).None?
  {
  }

  /** `_collection_snapshot_chain`, over any store content. */
  method SnapshotChain(h: Hashes, v: Store, ref: CollectionRef) returns (r: Option<seq<Snapshot>>)
    ensures r == if HasSnapshot(h, v, ref.collection, ref.snapshot) then LineageOf(h, v, ref) else None
  {
    hide CS.SeenBudget, LineageAt, Backwards;
    var c := ref.collection;
    if !HasSnapshot(h, v, c, ref.snapshot) {
      return None;
    }
    var cursor := ref.snapshot;
    var expected := v.snapshots[SnapshotKey(c, cursor)].basis.revision;
    ghost var answer := LineageOf(h, v, ref);
    var newest: seq<Snapshot> := [];
    var seen: set<Id> := {};
    StartChain(h, v, c, cursor, expected);
    while true
      invariant HasSnapshot(h, v, c, cursor) && ChainLeft(h, v, c, cursor, expected, newest) == answer
      invariant forall s :: s in seen ==>
        SnapshotKey(c, s) in v.snapshots && v.snapshots[SnapshotKey(c, s)].basis.revision > expected
      decreases CS.SeenBudget(v, c, seen)
    {
      StepDown(h, v, c, cursor, expected, newest);
      if cursor in seen {
        return None;
      }
      CS.SeenGrows(v, c, seen, cursor);
      seen := seen + {cursor};
      var snapshot := v.snapshots[SnapshotKey(c, cursor)];
      if snapshot.basis.revision != expected {
        return None;
      }
      newest := newest + [snapshot];
      if snapshot.basis.previous.None? {
        if snapshot.basis.revision != 0 {
          return None;
        }
        return Some(Backwards(newest));
      }
      expected := expected - 1;
      if !HasSnapshot(h, v, c, snapshot.basis.previous.value) {
        Unreadable(h, v, c, snapshot.basis.previous.value, expected, newest);
        return None;
      }
      cursor := snapshot.basis.previous.value;
    }
  }

  lemma StartChain(h: Hashes, v: Store, c: Id, s: Id, n: int)
    ensures ChainLeft(h, v, c, s, n, []) == LineageAt(h, v, c, s, n)
  {
    match LineageAt(h, v, c, s, n)
    case None =>
    case Some(older) => assert older + [] == older;
  }

  // ----- what is gathered -----

  datatype FileRow = FileRow(record: FileRecord, payload: Bytes)

  datatype Gathered = Gathered(run: Run, events: seq<Event>, rows: seq<FileRow>, descriptor: Option<Descriptor>,
      chain: seq<Snapshot>)

  function SnapshotMembers(v: Store, r: Run): seq<Id> {
    if r.basis.collection.None? then []
    else
      var key := SnapshotKey(r.basis.collection.value.collection, r.basis.collection.value.snapshot);
      if key in v.snapshots then v.snapshots[key].basis.members else []
  }

  /** Every File the run, its events or its snapshot binds. */
  function BoundFiles(v: Store, r: Run, es: seq<Event>): set<Id> {
    (set f | f in r.basis.files) + (set i, f | 0 <= i < |es| && f in es[i].basis.files :: f)
      + (set f | f in SnapshotMembers(v, r))
  }

  function RowsFor(v: Store, ids: seq<Id>): seq<FileRow>
    requires forall i :: 0 <= i < |ids| ==> ids[i] in v.files && v.files[ids[i]].basis.objectId in v.objects
  {
    seq(|ids|, i requires 0 <= i < |ids| => FileRow(v.files[ids[i]], v.objects[v.files[ids[i]].basis.objectId]))
  }

  ghost predicate Gathers(h: RunHashes, v: Store, log: Log, run: Id, g: Gathered) {
    && VerifyRunAccepts(h, v, log, run)
    && g.run == log.runs[run] && Some(g.events) == History(h, v, log, run)
    && RowsAre(h, v, Collections.Ascending(BoundFiles(v, g.run, g.events)), g.rows)
    && match g.run.basis.collection
       case None => g.descriptor == None && g.chain == []
       case Some(ref) =>
         ref.collection in v.collections && g.descriptor == Some(v.collections[ref.collection])
         && LineageOf(h.store, v, ref) == Some(g.chain)
  }

  ghost predicate RowsAre(h: RunHashes, v: Store, ids: seq<Id>, rows: seq<FileRow>) {
    |rows| == |ids| && forall i :: 0 <= i < |ids| ==> RowIs(h, v, ids[i], rows[i])
  }

  ghost predicate RowIs(h: RunHashes, v: Store, file: Id, row: FileRow) {
    Readable(h.store, v, file) && row == FileRow(v.files[file], v.objects[v.files[file].basis.objectId])
  }

  // ----- the entries -----

  datatype Item = Item(place: Place, data: Bytes, privacy: Privacy, recovery: Capsule.Recovery)

  function EntryFor(p: Profile, i: Item): Entry {
    Capsule.Entry(p.path(i.place), i.data, p.kind(i.place), i.privacy, i.recovery, None)
  }

  function EntriesFor(p: Profile, items: seq<Item>): seq<Entry> {
    seq(|items|, i requires 0 <= i < |items| => EntryFor(p, items[i]))
  }

  function EventItem(p: Profile, e: Event, privacy: Privacy): Item {
    Item(EventPlace(e.basis.sequence, e.id), p.write(EventJson(e)), privacy, Capsule.MidShell)
  }

  function EventItems(p: Profile, es: seq<Event>, privacy: Privacy): seq<Item> {
    seq(|es|, i requires 0 <= i < |es| => EventItem(p, es[i], privacy))
  }

  function FileItems(p: Profile, rows: seq<FileRow>): seq<Item> {
    if rows == [] then []
    else
      var row := rows[|rows| - 1];
      FileItems(p, rows[..|rows| - 1])
      + [Item(FilePlace(row.record.id), p.write(FileJson(row.record)), row.record.basis.privacy, Capsule.MidShell),
         Item(ObjectPlace(row.record.basis.objectId), row.payload, row.record.basis.privacy, Capsule.OuterShell)]
  }

  function SnapshotItem(p: Profile, d: Descriptor, s: Snapshot): Item {
    Item(SnapshotPlace(d.id, s.id), p.write(SnapshotJson(s)), d.basis.privacy, Capsule.MidShell)
  }

  function CollectionItems(p: Profile, d: Option<Descriptor>, chain: seq<Snapshot>): seq<Item> {
    if d.None? then []
    else
      [Item(DescriptorPlace(d.value.id), p.write(DescriptorJson(d.value)), d.value.basis.privacy, Capsule.NearShell)]
      + seq(|chain|, i requires 0 <= i < |chain| => SnapshotItem(p, d.value, chain[i]))
  }

  /** `_privacy_max`: the strictest class, and never below INTERNAL. */
  function ClassOf(g: Gathered): Privacy {
    var classes := seq(|g.rows|, i requires 0 <= i < |g.rows| => g.rows[i].record.basis.privacy)
                   + (if g.descriptor.Some? then [g.descriptor.value.basis.privacy] else []);
    RunOps.Stricter(RunOps.Strictest(classes), Internal)
  }

  function Items(p: Profile, g: Gathered): seq<Item> {
    [Item(RunPlace(g.run.id), p.write(RunJson(g.run)), ClassOf(g), Capsule.NearShell)]
    + EventItems(p, g.events, ClassOf(g))
    + FileItems(p, g.rows)
    + CollectionItems(p, g.descriptor, g.chain)
    + [Item(LatticePlace, p.write(LatticeJson), Internal, Capsule.NearShell)]
  }

  function PathsOf(p: Profile, items: seq<Item>): seq<Bytes> {
    seq(|items|, i requires 0 <= i < |items| => p.path(items[i].place))
  }

  function PathKey(): Bytes -> seq<int> {
    (b: Bytes) => b
  }

  function SortedPaths(paths: seq<Bytes>): seq<Bytes> {
    Sorting.SortBy(paths, PathKey())
  }

  function FilePathsOf(p: Profile, rows: seq<FileRow>): seq<Bytes> {
    seq(|rows|, i requires 0 <= i < |rows| => p.path(FilePlace(rows[i].record.id)))
  }

  function ObjectPathsOf(p: Profile, rows: seq<FileRow>): seq<Bytes> {
    seq(|rows|, i requires 0 <= i < |rows| => p.path(ObjectPlace(rows[i].record.basis.objectId)))
  }

  function BootstrapOf(p: Profile, g: Gathered): Bootstrap {
    Bootstrap(g.run.id, RunTransfer.Fingerprint(p.h, g.run, g.events), ClassOf(g), g.run.basis.collection,
      SortedPaths(PathsOf(p, Items(p, g))), SortedPaths(PathsOf(p, EventItems(p, g.events, ClassOf(g)))),
      SortedPaths(FilePathsOf(p, g.rows)), SortedPaths(ObjectPathsOf(p, g.rows)),
      SortedPaths(PathsOf(p, CollectionItems(p, g.descriptor, g.chain))))
  }

  function BootstrapItem(p: Profile, g: Gathered): Item {
    Item(BootstrapPlace, p.write(BootstrapJson(BootstrapOf(p, g))), ClassOf(g), Capsule.NearShell)
  }

  function BundleEntries(p: Profile, g: Gathered): seq<Entry> {
    EntriesFor(p, Items(p, g) + [BootstrapItem(p, g)])
  }

  // ----- when the paths are distinct -----

  function PlacesOf(items: seq<Item>): seq<Place> {
    seq(|items|, i requires 0 <= i < |items| => items[i].place)
  }

  lemma DistinctPlaces(p: Profile, items: seq<Item>)
    requires p.Sound()
    ensures Capsule.PathsDistinct(EntriesFor(p, items)) <==> Distinct(PlacesOf(items))
  {
    var es, places := EntriesFor(p, items), PlacesOf(items);
    forall i, j | 0 <= i < |items| && 0 <= j < |items| ensures es[i].path == es[j].path <==> places[i] == places[j] {
      assert p.name(p.path(places[i])) == places[i] && p.name(p.path(places[j])) == places[j];
    }
  }

  lemma DistinctConcat<T>(a: seq<T>, b: seq<T>)
    ensures Distinct(a + b) <==> Distinct(a) && Distinct(b) && forall x :: x in a ==> x !in b
  {
    var s := a + b;
    if Distinct(s) {
      forall x | x in a ensures x !in b {
        var i :| 0 <= i < |a| && a[i] == x;
        forall j | 0 <= j < |b| ensures b[j] != x {
          assert s[i] == x && s[|a| + j] == b[j];
        }
      }
      assert forall i :: 0 <= i < |a| ==> s[i] == a[i];
      assert forall j :: 0 <= j < |b| ==> s[|a| + j] == b[j];
    } else {
      var i, j :| 0 <= i < j < |s| && s[i] == s[j];
      if i < |a| && |a| <= j { assert s[i] in a && s[j] in b; }
    }
  }

  /** No two Files share their raw object. */
  predicate ObjectsDistinct(rows: seq<FileRow>) {
    forall i, j :: 0 <= i < j < |rows| ==> rows[i].record.basis.objectId != rows[j].record.basis.objectId
  }

  predicate IdsDistinct(rows: seq<FileRow>) {
    forall i, j :: 0 <= i < j < |rows| ==> rows[i].record.id != rows[j].record.id
  }

  lemma {:induction false} FileItemPlaces(p: Profile, rows: seq<FileRow>)
    ensures forall x :: x in PlacesOf(FileItems(p, rows)) <==>
      exists i :: 0 <= i < |rows| && (x == FilePlace(rows[i].record.id)
        || x == ObjectPlace(rows[i].record.basis.objectId))
  {
    if rows != [] {
      var n := |rows| - 1;
      FileItemPlaces(p, rows[..n]);
      LastFilePlaces(p, rows);
      forall x
        ensures x in PlacesOf(FileItems(p, rows)) <==>
          exists i :: 0 <= i < |rows| && (x == FilePlace(rows[i].record.id)
            || x == ObjectPlace(rows[i].record.basis.objectId))
      {
        if x in PlacesOf(FileItems(p, rows[..n])) {
          var i :| 0 <= i < n && (x == FilePlace(rows[..n][i].record.id)
            || x == ObjectPlace(rows[..n][i].record.basis.objectId));
          assert rows[i] == rows[..n][i];
        }
      }
    }
  }

  lemma LastFilePlaces(p: Profile, rows: seq<FileRow>)
    requires rows != []
    ensures
      var row := rows[|rows| - 1];
      PlacesOf(FileItems(p, rows)) == PlacesOf(FileItems(p, rows[..|rows| - 1]))
        + [FilePlace(row.record.id), ObjectPlace(row.record.basis.objectId)]
  {
  }

  /** The one clash there can be: two bound Files over the same object. */
  lemma {:induction false} FilePlacesDistinct(p: Profile, rows: seq<FileRow>)
    requires IdsDistinct(rows)
    ensures Distinct(PlacesOf(FileItems(p, rows))) <==> ObjectsDistinct(rows)
  {
    hide FileItems, PlacesOf;
    if rows == [] {
      NoFilePlaces(p);
    } else {
      var n := |rows| - 1;
      var front, last := PlacesOf(FileItems(p, rows[..n])),
        [FilePlace(rows[n].record.id), ObjectPlace(rows[n].record.basis.objectId)];
      FilePlacesDistinct(p, rows[..n]);
      FileItemPlaces(p, rows[..n]);
      LastFilePlaces(p, rows);
      DistinctConcat(front, last);
      LastObject(rows);
      assert forall x :: x in last <==> x == last[0] || x == last[1];
      if ObjectsDistinct(rows) {
        forall i | 0 <= i < n ensures rows[..n][i].record.id != rows[n].record.id {}
        assert last[0] !in front && last[1] !in front;
      } else if ObjectsDistinct(rows[..n]) {
        var i :| 0 <= i < n && rows[i].record.basis.objectId == rows[n].record.basis.objectId;
        assert rows[..n][i] == rows[i];
        assert last[1] in front;
      }
    }
  }

  lemma NoFilePlaces(p: Profile)
    ensures Distinct(PlacesOf(FileItems(p, [])))
  {
  }

  lemma LastObject(rows: seq<FileRow>)
    requires rows != []
    ensures
      var n := |rows| - 1;
      ObjectsDistinct(rows) <==> ObjectsDistinct(rows[..n]) && forall i :: 0 <= i < n ==>
        rows[i].record.basis.objectId != rows[n].record.basis.objectId
  {
  }

  /** What the gathered records of a verified run always satisfy. */
  ghost predicate Orderly(g: Gathered) {
    && Chained(g.run.id, g.events) && IdsDistinct(g.rows)
    && forall i, j :: 0 <= i < j < |g.chain| ==> g.chain[i].id != g.chain[j].id
  }

  predicate HeadPlace(x: Place) { x.RunPlace? || x.EventPlace? }

  predicate FileOrObject(x: Place) { x.FilePlace? || x.ObjectPlace? }

  predicate InCollection(x: Place) { x.DescriptorPlace? || x.SnapshotPlace? }

  lemma HeadPlaces(p: Profile, g: Gathered, privacy: Privacy)
    requires Chained(g.run.id, g.events)
    ensures
      var places := [RunPlace(g.run.id)] + PlacesOf(EventItems(p, g.events, privacy));
      Distinct(places) && forall x :: x in places ==> HeadPlace(x)
  {
    var tail := PlacesOf(EventItems(p, g.events, privacy));
    EventPlacesDistinct(p, g.events, privacy);
    DistinctConcat([RunPlace(g.run.id)], tail);
  }

  lemma EventPlacesDistinct(p: Profile, es: seq<Event>, privacy: Privacy)
    requires forall i :: 0 <= i < |es| ==> es[i].basis.sequence == i
    ensures
      var places := PlacesOf(EventItems(p, es, privacy));
      |places| == |es| && Distinct(places) && forall x :: x in places ==> x.EventPlace?
  {
    var places := PlacesOf(EventItems(p, es, privacy));
    forall i | 0 <= i < |places| ensures places[i] == EventPlace(i, es[i].id) {
      assert EventItems(p, es, privacy)[i] == EventItem(p, es[i], privacy);
    }
  }

  lemma CollectionPlaces(p: Profile, g: Gathered)
    requires Orderly(g)
    ensures
      var places := PlacesOf(CollectionItems(p, g.descriptor, g.chain));
      Distinct(places) && forall x :: x in places ==> InCollection(x)
  {
    var places := PlacesOf(CollectionItems(p, g.descriptor, g.chain));
    if g.descriptor.Some? {
      assert forall i :: 0 < i < |places| ==> places[i] == SnapshotPlace(g.descriptor.value.id, g.chain[i - 1].id);
    }
  }

  lemma ItemPlaces(p: Profile, g: Gathered)
    ensures PlacesOf(Items(p, g) + [BootstrapItem(p, g)]) ==
      [RunPlace(g.run.id)] + PlacesOf(EventItems(p, g.events, ClassOf(g))) + PlacesOf(FileItems(p, g.rows))
      + PlacesOf(CollectionItems(p, g.descriptor, g.chain)) + [LatticePlace, BootstrapPlace]
  {
    hide ClassOf, FileItems, CollectionItems, EventItems, BootstrapOf;
  }

  /** The bundle's paths are distinct exactly when the bound Files have pairwise distinct objects. */
  lemma BundlePathsDistinct(p: Profile, g: Gathered)
    requires p.Sound() && Orderly(g)
    ensures Capsule.PathsDistinct(BundleEntries(p, g)) <==> ObjectsDistinct(g.rows)
  {
    hide PlacesOf, Items, FileItems, CollectionItems, EventItems, EntriesFor, BootstrapItem, ClassOf,
      Capsule.PathsDistinct;
    var a := [RunPlace(g.run.id)] + PlacesOf(EventItems(p, g.events, ClassOf(g)));
    var b, c := PlacesOf(FileItems(p, g.rows)), PlacesOf(CollectionItems(p, g.descriptor, g.chain));
    DistinctPlaces(p, Items(p, g) + [BootstrapItem(p, g)]);
    ItemPlaces(p, g);
    HeadPlaces(p, g, ClassOf(g));
    FilePlacesDistinct(p, g.rows);
    FileItemPlaces(p, g.rows);
    assert forall x :: x in b ==> FileOrObject(x);
    CollectionPlaces(p, g);
    ChainsConcat(a, b, c, [LatticePlace, BootstrapPlace]);
  }

  lemma ChainsConcat(a: seq<Place>, b: seq<Place>, c: seq<Place>, d: seq<Place>)
    requires Distinct(a) && Distinct(c) && d == [LatticePlace, BootstrapPlace]
    requires forall x :: x in a ==> HeadPlace(x)
    requires forall x :: x in b ==> FileOrObject(x)
    requires forall x :: x in c ==> InCollection(x)
    ensures Distinct(a + b + c + d) <==> Distinct(b)
  {
    DistinctConcat(a, b);
    DistinctConcat(a + b, c);
    DistinctConcat(a + b + c, d);
  }
}
