/** The privacy and recovery classes of a one-run recovery bundle and of its entries. */
module ArkRunClass {
  import opened Common
  import opened Vault
  import opened RunLog
  import opened ArkRunBundle
  import Capsule = RestoreCapsule
  import Collections
  import RunOps
  import RunTransfer

  /** `p` is INTERNAL or stricter, no laxer than anything the run names, and no stricter than that demands. */
  ghost predicate IsBundleClass(v: Store, r: Run, es: seq<Event>, p: Privacy) {
    && p.Rank() >= Internal.Rank()
    && (forall f :: RunTransfer.NamesFile(v, r, es, f) ==>
          f in v.files && v.files[f].basis.privacy.Rank() <= p.Rank())
    && (r.basis.collection.Some? ==>
          var c := r.basis.collection.value.collection;
          c in v.collections && v.collections[c].basis.privacy.Rank() <= p.Rank())
    && (|| p == Internal
        || (exists f :: RunTransfer.NamesFile(v, r, es, f) && v.files[f].basis.privacy == p)
        || (r.basis.collection.Some? && v.collections[r.basis.collection.value.collection].basis.privacy == p))
  }

  lemma BoundIsNamed(v: Store, r: Run, es: seq<Event>, f: Id)
    ensures f in BoundFiles(v, r, es) <==> RunTransfer.NamesFile(v, r, es, f)
  {
  }

  lemma RowOf(h: RunHashes, v: Store, ids: seq<Id>, rows: seq<FileRow>, f: Id)
    requires RowsAre(h, v, ids, rows) && f in ids
    ensures f in v.files && exists i :: 0 <= i < |rows| && rows[i].record == v.files[f]
  {
    var i :| 0 <= i < |ids| && ids[i] == f;
    assert RowIs(h, v, ids[i], rows[i]);
  }

  lemma RowsWithin(g: Gathered)
    ensures ClassOf(g).Rank() >= Internal.Rank()
    ensures forall k :: 0 <= k < |g.rows| ==> g.rows[k].record.basis.privacy.Rank() <= ClassOf(g).Rank()
    ensures g.descriptor.Some? ==> g.descriptor.value.basis.privacy.Rank() <= ClassOf(g).Rank()
  {
    var fromRows := seq(|g.rows|, i requires 0 <= i < |g.rows| => g.rows[i].record.basis.privacy);
    var classes := fromRows + (if g.descriptor.Some? then [g.descriptor.value.basis.privacy] else []);
    assert RunOps.Strictest(classes).Rank() <= ClassOf(g).Rank();
    forall k | 0 <= k < |g.rows| ensures g.rows[k].record.basis.privacy.Rank() <= ClassOf(g).Rank() {
      assert classes[k] == fromRows[k] && classes[k] in classes;
    }
    if g.descriptor.Some? {
      assert classes[|fromRows|] in classes;
    }
  }
  lemma ClassAttained(g: Gathered)
    ensures
      || ClassOf(g) == Internal
      || (exists k :: 0 <= k < |g.rows| && g.rows[k].record.basis.privacy == ClassOf(g))
      || (g.descriptor.Some? && g.descriptor.value.basis.privacy == ClassOf(g))
  {
    var fromRows := seq(|g.rows|, i requires 0 <= i < |g.rows| => g.rows[i].record.basis.privacy);
    var classes := fromRows + (if g.descriptor.Some? then [g.descriptor.value.basis.privacy] else []);
    if ClassOf(g) != Internal {
      assert ClassOf(g) == RunOps.Strictest(classes);
      var k :| 0 <= k < |classes| && classes[k] == ClassOf(g);
      if k < |fromRows| { assert g.rows[k].record.basis.privacy == ClassOf(g); }
    }
  }

  /** The class a bundle carries is that of the run it holds, and at least INTERNAL. */
  lemma BundleClass(h: RunHashes, v: Store, log: Log, run: Id, g: Gathered)
    requires Gathers(h, v, log, run, g)
    ensures IsBundleClass(v, g.run, g.events, ClassOf(g))
  {
    hide VerifyRunAccepts, History, LineageOf, RunTransfer.NamesFile, ClassOf, BoundFiles, Readable;
    var ids := Collections.Ascending(BoundFiles(v, g.run, g.events));
    forall f ensures f in ids <==> RunTransfer.NamesFile(v, g.run, g.events, f) {
      BoundIsNamed(v, g.run, g.events, f);
    }
    RowsWithin(g);
    ClassAttained(g);
    forall f | RunTransfer.NamesFile(v, g.run, g.events, f)
      ensures f in v.files && v.files[f].basis.privacy.Rank() <= ClassOf(g).Rank()
    {
      RowOf(h, v, ids, g.rows, f);
    }
    forall k | 0 <= k < |g.rows|
      ensures RunTransfer.NamesFile(v, g.run, g.events, ids[k]) && ids[k] in v.files
        && v.files[ids[k]] == g.rows[k].record
    {
      assert RowIs(h, v, ids[k], g.rows[k]) && ids[k] in ids;
      RowOf(h, v, ids, g.rows, ids[k]);
    }
  }

  /** The run and its Collection come back first, then records, then raw objects. */
  function RecoveryAt(place: Place): Capsule.Recovery {
    if place.ObjectPlace? then Capsule.OuterShell
    else if place.EventPlace? || place.FilePlace? || place.SnapshotPlace? then Capsule.MidShell
    else Capsule.NearShell
  }

  /** An entry holds its own File or Collection at that record's class, or the run at the bundle's class. */
  ghost predicate Classed(p: Profile, g: Gathered, i: Item) {
    && i.recovery == RecoveryAt(i.place)
    && match i.place
       case FilePlace(f) =>
         exists k :: 0 <= k < |g.rows| && g.rows[k].record.id == f && i.data == p.write(FileJson(g.rows[k].record))
           && i.privacy == g.rows[k].record.basis.privacy
       case ObjectPlace(o) =>
         exists k :: 0 <= k < |g.rows| && g.rows[k].record.basis.objectId == o && i.data == g.rows[k].payload
           && i.privacy == g.rows[k].record.basis.privacy
       case DescriptorPlace(_) => g.descriptor.Some? && i.privacy == g.descriptor.value.basis.privacy
       case SnapshotPlace(_, _) => g.descriptor.Some? && i.privacy == g.descriptor.value.basis.privacy
       case LatticePlace => i.privacy == Internal
       case _ => i.privacy == ClassOf(g)
  }

  lemma {:induction false} FilesClassed(p: Profile, g: Gathered, n: nat, i: Item)
    requires n <= |g.rows| && i in FileItems(p, g.rows[..n])
    ensures Classed(p, g, i)
  {
    hide ClassOf;
    var row := g.rows[n - 1];
    assert g.rows[..n][..n - 1] == g.rows[..n - 1];
    if i in FileItems(p, g.rows[..n - 1]) {
      FilesClassed(p, g, n - 1, i);
    }
  }

  /** No entry of a bundle is stricter than the bundle itself. */
  lemma ItemsClassed(p: Profile, g: Gathered, i: Item)
    requires i in Items(p, g) + [BootstrapItem(p, g)]
    ensures Classed(p, g, i) && i.privacy.Rank() <= ClassOf(g).Rank()
  {
    hide FileItems, BootstrapOf;
    RowsWithin(g);
    if i in FileItems(p, g.rows) {
      assert g.rows[..|g.rows|] == g.rows;
      FilesClassed(p, g, |g.rows|, i);
    } else if i in EventItems(p, g.events, ClassOf(g)) {
      var k :| 0 <= k < |g.events| && EventItems(p, g.events, ClassOf(g))[k] == i;
    } else if i in CollectionItems(p, g.descriptor, g.chain) {
      var items := CollectionItems(p, g.descriptor, g.chain);
      var k :| 0 <= k < |items| && items[k] == i;
    }
  }
}
