/** Building a repository recovery package and reconstructing a store from one
    (`build_repository_recovery_package`, `_reconstruct` in `storage/ark_repository_bundle.py`). */
module ArkPackage {
  import opened Common
  import opened Vault
  import opened RestoreCapsule
  import opened ArkTransport
  import opened ArkRepository
  import Sorting

  // ----- building -----

  /** What the builder is given: the canonical files and the support files beside them. */
  datatype Origin = Origin(tree: seq<File>, support: seq<File>, size: nat) {
    ghost predicate WellFormed() {
      size > 0 && DistinctFiles(tree + support) && AllInStore(tree) && NoneInStore(support)
    }
  }

  function Sources(p: Profile, o: Origin): seq<File> {
    Sorting.SortBy(o.tree + o.support, FileKey(p))
  }

  function Entries(p: Profile, o: Origin): seq<Entry>
    requires o.size > 0
  {
    Transport(p, multiset(o.tree), Sources(p, o), o.size)
  }

  ghost predicate CapsuleFits(p: Profile, g: seq<Entry>) {
    Packed(p.coder, g).Ok? && |Packed(p.coder, g).value| <= MAX_CAPSULE_FILE_BYTES
  }

  ghost predicate GroupsFit(p: Profile, gs: seq<seq<Entry>>) {
    0 < |gs| <= MAX_CAPSULE_COUNT && forall i :: 0 <= i < |gs| ==> CapsuleFits(p, gs[i])
  }

  /** When a package can be built: a sound store, no object in too many pieces, no entry too large for
      a capsule, and the one tight packing makes capsules within the limits. */
  ghost predicate Buildable(p: Profile, o: Origin)
    requires o.size > 0
  {
    && Collectable(p, o.tree) && ChunksLimited(Sources(p, o), o.size) && AllSmall(Entries(p, o))
    && exists gs :: Packing(gs, Entries(p, o)) && Tight(gs) && GroupsFit(p, gs)
  }

  ghost predicate CapsuleHolds(p: Profile, pkg: Package, i: nat, g: seq<Entry>)
    requires i < |pkg.capsules| && i < |pkg.basis.rows|
  {
    && Packed(p.coder, g) == Ok(pkg.capsules[i]) && |pkg.capsules[i]| <= MAX_CAPSULE_FILE_BYTES
    && pkg.basis.rows[i] == CapsuleRow(p.coder.content(pkg.capsules[i]), |pkg.capsules[i]|, |g|)
  }

  ghost predicate CapsulesHold(p: Profile, pkg: Package, gs: seq<seq<Entry>>) {
    && |gs| == |pkg.capsules| == |pkg.basis.rows|
    && forall i: nat :: i < |gs| ==> CapsuleHolds(p, pkg, i, gs[i])
  }

  /** The package carries this origin, in these groups.  Any grouping will do. */
  ghost predicate Carries(p: Profile, pkg: Package, o: Origin, gs: seq<seq<Entry>>)
    requires o.size > 0
  {
    && Collectable(p, o.tree) && ChunksLimited(Sources(p, o), o.size)
    && Flat(gs) == Entries(p, o) && 0 < |gs| <= MAX_CAPSULE_COUNT && CapsulesHold(p, pkg, gs)
    && pkg.basis.fingerprint == Fingerprint(p, o.tree) && pkg.basis.privacy == p.strongest(multiset(o.tree))
    && pkg.basis.entryCount == |o.tree| && pkg.id == p.package(pkg.basis)
  }

  /** `build_repository_recovery_package`. */
  method BuildPackage(p: Profile, o: Origin) returns (r: Result<Package, PackError>)
    requires p.Sound() && o.WellFormed()
    ensures r.Ok? <==> Buildable(p, o)
    ensures r.Ok? ==> exists gs :: Carries(p, r.value, o, gs) && Tight(gs)
  {
    hide Collectable, Fingerprint, ChunksLimited, AllSmall, Packing, Tight, CapsulesHold, CapsuleFits, Flat;
    if !Collectable(p, o.tree) {
      return Err(InvalidStore);
    }
    var files := Sources(p, o);
    var entries := StreamAll(p, multiset(o.tree), files, o.size);
    if entries.Err? {
      return Err(entries.error);
    }
    var groups := GroupEntries(entries.value);
    if groups.Err? {
      return Err(TransportFailed(groups.error));
    }
    forall gs | Packing(gs, Entries(p, o)) && Tight(gs) ensures gs == groups.value {
      TightUnique(gs, groups.value, Entries(p, o));
    }
    var packed := PackAll(p, groups.value);
    if packed.Err? {
      return Err(packed.error);
    }
    var (capsules, rows) := packed.value;
    var basis := Basis(Fingerprint(p, o.tree), p.strongest(multiset(o.tree)), |o.tree|, rows);
    var pkg := Package(p.package(basis), basis, capsules);
    PackingFlat(groups.value, Entries(p, o));
    HoldsAgain(p, Package(0, Basis(0, Public, 0, rows), capsules), pkg, groups.value);
    assert Carries(p, pkg, o, groups.value);
    r := Ok(pkg);
  }

  lemma PackingFlat(gs: seq<seq<Entry>>, entries: seq<Entry>)
    requires Packing(gs, entries)
    ensures Flat(gs) == entries
  {
  }

  lemma HoldsAgain(p: Profile, a: Package, b: Package, gs: seq<seq<Entry>>)
    requires CapsulesHold(p, a, gs) && a.capsules == b.capsules && a.basis.rows == b.basis.rows
    ensures CapsulesHold(p, b, gs)
  {
    forall i: nat | i < |gs| ensures CapsuleHolds(p, b, i, gs[i]) {
      assert CapsuleHolds(p, a, i, gs[i]);
    }
  }

  /** `_iter_transport_entries`. */
  method StreamAll(p: Profile, all: multiset<File>, files: seq<File>, size: nat)
      returns (r: Result<seq<Entry>, PackError>)
    requires size > 0
    ensures r.Ok? <==> ChunksLimited(files, size)
    ensures r.Ok? ==> r.value == Transport(p, all, files, size)
  {
    hide CutInto, Cuttable, Chunks, ChunkEntries, CarrierEntry;
    var entries: seq<Entry> := [];
    for i := 0 to |files|
      invariant ChunksLimited(files[..i], size)
      invariant entries == Transport(p, all, files[..i], size)
    {
      assert files[..i + 1][..i] == files[..i];
      var f := files[i];
      var privacy := p.privacy(all, f.logical);
      if f.logical.Object? {
        var d := f.logical.digest;
        var chunks := StreamObject(f.data, size);
        if chunks.Err? {
          return Err(TransportFailed(chunks.error));
        }
        entries := entries + (ChunkEntries(p, privacy, d, chunks.value)
          + [CarrierEntry(p, privacy, f, d, chunks.value)]);
      } else {
        entries := entries + [Entry(p.path(f.logical), f.data, p.kind(f.logical), privacy, f.logical.Recovery(), None)];
      }
    }
    assert files[..|files|] == files;
    r := Ok(entries);
  }

  /** The packing loop: each group becomes a capsule that verifies. */
  method PackAll(p: Profile, groups: seq<seq<Entry>>) returns (r: Result<(seq<Bytes>, seq<CapsuleRow>), PackError>)
    requires p.Sound()
    ensures r.Ok? <==> GroupsFit(p, groups)
    ensures r.Ok? ==> CapsulesHold(p, Package(0, Basis(0, Public, 0, r.value.1), r.value.0), groups)
  {
    hide Packed, Canonical, ParsesTo;
    var capsules: seq<Bytes> := [];
    var rows: seq<CapsuleRow> := [];
    for i := 0 to |groups|
      invariant i <= MAX_CAPSULE_COUNT && |capsules| == |rows| == i
      invariant forall j: nat :: j < i ==>
        CapsuleFits(p, groups[j]) && CapsuleHolds(p, Package(0, Basis(0, Public, 0, rows), capsules), j, groups[j])
    {
      if i >= MAX_CAPSULE_COUNT {
        return Err(TooManyCapsules);
      }
      var capsule := PackCapsule(p.coder, groups[i]);
      if capsule.Err? {
        return Err(CapsuleFailed(capsule.error));
      }
      var report := VerifyCapsule(p.coder, capsule.value);
      PackedVerifies(p.coder, groups[i], capsule.value);
      if report.Err? {
        assert false;
      }
      ReportSays(p.coder, groups[i], capsule.value, report.value.0, report.value.1);
      if |capsule.value| > MAX_CAPSULE_FILE_BYTES {
        return Err(CapsuleTooLarge);
      }
      ghost var before := Package(0, Basis(0, Public, 0, rows), capsules);
      capsules := capsules + [capsule.value];
      rows := rows + [CapsuleRow(p.coder.content(capsule.value), |capsule.value|, |report.value.1|)];
      forall j: nat | j < i + 1
        ensures CapsuleFits(p, groups[j])
          && CapsuleHolds(p, Package(0, Basis(0, Public, 0, rows), capsules), j, groups[j])
      {
        if j < i { assert CapsuleHolds(p, before, j, groups[j]); }
      }
    }
    if capsules == [] {
      return Err(NoCapsules);
    }
    r := Ok((capsules, rows));
  }

  lemma PackedVerifies(c: Coder, g: seq<Entry>, raw: Bytes)
    requires Packed(c, g) == Ok(raw)
    ensures Canonical(c, raw)
  {
  }

  /** A verified capsule reports the entries that went in, sorted. */
  lemma ReportSays(c: Coder, g: seq<Entry>, raw: Bytes, m: Manifest, es: seq<Entry>)
    requires c.Sound() && Packed(c, g) == Ok(raw) && ParsesTo(c, raw, m, es)
    ensures es == Sorted(g) && |es| == |g| && forall e :: e in es <==> e in g
  {
    PackThenParse(c, g, raw);
    SortedPermutes(g);
    assert forall e :: e in es <==> e in multiset(es);
    assert forall e :: e in g <==> e in multiset(g);
  }

  // ----- loading -----

  /** The map holds exactly these entries, each under its path. */
  ghost predicate Indexes(m: map<Bytes, Entry>, es: seq<Entry>) {
    (forall e :: e in es ==> e.path in m && m[e.path] == e) && (forall k :: k in m ==> m[k] in es && m[k].path == k)
  }

  /** `_capsule_entries`, one capsule: its entries join the map unless a path is there already. */
  method MergeEntries(m: map<Bytes, Entry>, es: seq<Entry>, ghost had: seq<Entry>)
      returns (r: Result<map<Bytes, Entry>, PackError>)
    requires Indexes(m, had) && PathsDistinct(had)
    ensures r.Ok? <==> PathsDistinct(had + es)
    ensures r.Ok? ==> Indexes(r.value, had + es)
  {
    hide PathsDistinct, Indexes;
    var byPath := m;
    assert had + es[..0] == had;
    for i := 0 to |es|
      invariant Indexes(byPath, had + es[..i]) && PathsDistinct(had + es[..i])
    {
      if es[i].path in byPath {
        TakenAlready(byPath, had, es, i);
        return Err(DuplicateLogical);
      }
      OneMoreEntry(byPath, had + es[..i], es[i]);
      assert had + es[..i + 1] == had + es[..i] + [es[i]];
      byPath := byPath[es[i].path := es[i]];
    }
    assert es[..|es|] == es;
    r := Ok(byPath);
  }

  lemma OneMoreEntry(m: map<Bytes, Entry>, had: seq<Entry>, e: Entry)
    requires Indexes(m, had) && PathsDistinct(had) && e.path !in m
    ensures Indexes(m[e.path := e], had + [e]) && PathsDistinct(had + [e])
  {
    assert forall i :: 0 <= i < |had| ==> had[i] in had;
  }

  lemma TakenAlready(m: map<Bytes, Entry>, had: seq<Entry>, es: seq<Entry>, i: nat)
    requires i < |es| && Indexes(m, had + es[..i]) && es[i].path in m
    ensures !PathsDistinct(had + es)
  {
    var all, n := had + es, |had| + i;
    assert all[..n] == had + es[..i] && all[n] == es[i];
    var e := m[es[i].path];
    assert e in all[..n];
    var k :| 0 <= k < n && all[k] == e;
  }

  lemma IndexesSame(m: map<Bytes, Entry>, a: seq<Entry>, b: seq<Entry>)
    requires Indexes(m, a) && forall e :: e in a <==> e in b
    ensures Indexes(m, b)
  {
  }

  /** What capsule `i` of a package says: it is as its row has it, canonical, and holds these entries. */
  ghost predicate CapsuleSays(p: Profile, pkg: Package, i: nat, es: seq<Entry>)
    requires i < |pkg.capsules| && i < |pkg.basis.rows|
  {
    var row, raw := pkg.basis.rows[i], pkg.capsules[i];
    && 0 <= row.size <= MAX_CAPSULE_FILE_BYTES && |raw| == row.size && p.coder.content(raw) == row.sha
    && Canonical(p.coder, raw) && (exists m :: ParsesTo(p.coder, raw, m, es)) && |es| == row.entryCount
  }

  /** A package as it can be loaded, whoever made it: named by its contents, every capsule as its row has it,
      and no path twice. */
  ghost predicate LoadsAs(p: Profile, pkg: Package, ess: seq<seq<Entry>>) {
    && pkg.id == p.package(pkg.basis) && 0 < |pkg.basis.rows| <= MAX_CAPSULE_COUNT
    && |ess| == |pkg.capsules| == |pkg.basis.rows|
    && (forall i: nat :: i < |ess| ==> CapsuleSays(p, pkg, i, ess[i]))
    && PathsDistinct(Flat(ess))
  }

  lemma SaysOneThing(p: Profile, pkg: Package, i: nat, a: seq<Entry>, b: seq<Entry>)
    requires i < |pkg.capsules| && i < |pkg.basis.rows| && CapsuleSays(p, pkg, i, a) && CapsuleSays(p, pkg, i, b)
    ensures a == b
  {
    hide ParsesTo, Canonical;
    var raw := pkg.capsules[i];
    var m :| ParsesTo(p.coder, raw, m, a);
    var n :| ParsesTo(p.coder, raw, n, b);
    ParseUnique(p.coder, raw, m, a, n, b);
  }

  lemma {:induction false} SaySame(p: Profile, pkg: Package, ess: seq<seq<Entry>>, fss: seq<seq<Entry>>)
    requires |ess| <= |fss| <= |pkg.capsules| && |fss| <= |pkg.basis.rows|
    requires forall i: nat :: i < |ess| ==> CapsuleSays(p, pkg, i, ess[i])
    requires forall i: nat :: i < |fss| ==> CapsuleSays(p, pkg, i, fss[i])
    ensures fss[..|ess|] == ess
  {
    hide CapsuleSays;
    forall i | 0 <= i < |ess| ensures fss[i] == ess[i] { SaysOneThing(p, pkg, i, ess[i], fss[i]); }
  }

  lemma FlatSnoc(ess: seq<seq<Entry>>, es: seq<Entry>)
    ensures Flat(ess + [es]) == Flat(ess) + es
  {
    assert (ess + [es])[..|ess|] == ess;
  }

  lemma PrefixDistinct(a: seq<Entry>, b: seq<Entry>)
    requires PathsDistinct(a + b)
    ensures PathsDistinct(a)
  {
    assert forall i :: 0 <= i < |a| ==> (a + b)[i] == a[i];
  }

  /** The paths of the first capsules already clash. */
  lemma ClashStays(p: Profile, pkg: Package, ess: seq<seq<Entry>>, es: seq<Entry>, fss: seq<seq<Entry>>)
    requires LoadsAs(p, pkg, fss) && |ess| < |fss| && CapsuleSays(p, pkg, |ess|, es)
    requires forall i: nat :: i < |ess| ==> CapsuleSays(p, pkg, i, ess[i])
    ensures PathsDistinct(Flat(ess) + es)
  {
    hide CapsuleSays, PathsDistinct, Flat;
    SaySame(p, pkg, ess, fss);
    SaysOneThing(p, pkg, |ess|, es, fss[|ess|]);
    var n := |ess| + 1;
    assert fss[..n] == ess + [es] && fss == fss[..n] + fss[n..];
    FlatSnoc(ess, es);
    FlatAppend(fss[..n], fss[n..]);
    PrefixDistinct(Flat(fss[..n]), Flat(fss[n..]));
  }

  /** `_load_bootstrap` and `_capsule_entries`: a package loads exactly when its capsules are in order, and then
      as exactly the entries they hold. */
  method LoadCapsules(p: Profile, pkg: Package) returns (r: Result<map<Bytes, Entry>, PackError>)
    requires p.Sound()
    ensures r.Ok? <==> exists ess :: LoadsAs(p, pkg, ess)
    ensures forall ess :: LoadsAs(p, pkg, ess) ==> r.Ok? && Indexes(r.value, Flat(ess))
  {
    hide Packed, Canonical, ParsesTo, PathsDistinct, Indexes, Flat, Profile.Sound;
    var byPath: map<Bytes, Entry> := map[];
    if pkg.basis.rows == [] || |pkg.basis.rows| > MAX_CAPSULE_COUNT || pkg.id != p.package(pkg.basis) {
      return Err(WrongPackage);
    }
    if |pkg.capsules| != |pkg.basis.rows| {
      return Err(WrongPackage);
    }
    CoderIsSound(p);
    ghost var ess: seq<seq<Entry>> := [];
    IndexesNothing();
    FlatNothing();
    for i := 0 to |pkg.basis.rows|
      invariant |ess| == i && forall j: nat :: j < i ==> CapsuleSays(p, pkg, j, ess[j])
      invariant Indexes(byPath, Flat(ess)) && PathsDistinct(Flat(ess))
    {
      var row, raw := pkg.basis.rows[i], pkg.capsules[i];
      if !(0 <= row.size <= MAX_CAPSULE_FILE_BYTES) || |raw| != row.size || p.coder.content(raw) != row.sha {
        assert forall fss :: LoadsAs(p, pkg, fss) ==> CapsuleSays(p, pkg, i, fss[i]);
        return Err(WrongCapsule);
      }
      var report := VerifyCapsule(p.coder, raw);
      if report.Err? {
        assert forall fss :: LoadsAs(p, pkg, fss) ==> CapsuleSays(p, pkg, i, fss[i]);
        return Err(CapsuleFailed(report.error));
      }
      var entries := report.value.1;
      if |entries| != row.entryCount {
        forall fss | LoadsAs(p, pkg, fss) ensures fss[i] == entries {
          assert CapsuleSays(p, pkg, i, fss[i]);
          var m :| ParsesTo(p.coder, raw, m, fss[i]);
          ParseUnique(p.coder, raw, m, fss[i], report.value.0, entries);
        }
        assert forall fss :: LoadsAs(p, pkg, fss) ==> CapsuleSays(p, pkg, i, fss[i]);
        return Err(WrongCapsule);
      }
      assert CapsuleSays(p, pkg, i, entries);
      var merged := MergeEntries(byPath, entries, Flat(ess));
      if merged.Err? {
        forall fss ensures !LoadsAs(p, pkg, fss) {
          if LoadsAs(p, pkg, fss) { ClashStays(p, pkg, ess, entries, fss); }
        }
        return Err(merged.error);
      }
      byPath := merged.value;
      FlatSnoc(ess, entries);
      ghost var next := ess + [entries];
      assert next[..i] == ess && forall j: nat :: j < i ==> next[j] == ess[j];
      ess := next;
    }
    assert LoadsAs(p, pkg, ess);
    forall fss | LoadsAs(p, pkg, fss) ensures fss == ess { SaySame(p, pkg, ess, fss); }
    r := Ok(byPath);
  }

  lemma CoderIsSound(p: Profile)
    requires p.Sound()
    ensures p.coder.Sound()
  {
  }

  lemma IndexesNothing()
    ensures Indexes(map[], []) && PathsDistinct([])
  {
  }

  lemma FlatNothing()
    ensures Flat([]) == []
  {
  }

  // ----- loading what was built -----

  ghost predicate Loadable(p: Profile, pkg: Package, gs: seq<seq<Entry>>) {
    && CapsulesHold(p, pkg, gs) && 0 < |gs| <= MAX_CAPSULE_COUNT
    && PathsDistinct(Flat(gs)) && pkg.id == p.package(pkg.basis)
  }

  function SortedAll(gs: seq<seq<Entry>>): seq<seq<Entry>> {
    seq(|gs|, i requires 0 <= i < |gs| => Sorted(gs[i]))
  }

  lemma {:induction false} SortedAllSame(gs: seq<seq<Entry>>)
    ensures multiset(Flat(SortedAll(gs))) == multiset(Flat(gs))
  {
    if gs != [] {
      var n := |gs| - 1;
      SortedAllSame(gs[..n]);
      SortedPermutes(gs[n]);
      assert SortedAll(gs)[..n] == SortedAll(gs[..n]);
    }
  }

  lemma HeldSays(p: Profile, pkg: Package, i: nat, g: seq<Entry>)
    requires p.Sound() && i < |pkg.capsules| && i < |pkg.basis.rows| && CapsuleHolds(p, pkg, i, g)
    ensures CapsuleSays(p, pkg, i, Sorted(g))
  {
    hide Packed, ParsesTo, Canonical;
    PackedVerifies(p.coder, g, pkg.capsules[i]);
    PackThenParse(p.coder, g, pkg.capsules[i]);
    SortedPermutes(g);
    assert ParsesTo(p.coder, pkg.capsules[i], ManifestFor(p.coder, Sorted(g)), Sorted(g));
  }

  /** A package that holds given groups loads as exactly their entries. */
  lemma LoadableLoads(p: Profile, pkg: Package, gs: seq<seq<Entry>>)
    requires p.Sound() && Loadable(p, pkg, gs)
    ensures LoadsAs(p, pkg, SortedAll(gs))
    ensures forall e :: e in Flat(SortedAll(gs)) <==> e in Flat(gs)
  {
    hide CapsuleHolds, CapsuleSays, PathsDistinct, Flat;
    var ess := SortedAll(gs);
    forall i: nat | i < |ess| ensures CapsuleSays(p, pkg, i, ess[i]) {
      assert CapsuleHolds(p, pkg, i, gs[i]);
      HeldSays(p, pkg, i, gs[i]);
    }
    SortedAllSame(gs);
    PathsDistinctByMultiset(Flat(gs), Flat(ess));
    assert forall e :: e in Flat(ess) <==> e in multiset(Flat(ess));
    assert forall e :: e in Flat(gs) <==> e in multiset(Flat(gs));
  }
}
