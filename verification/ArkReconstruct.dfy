/** Reconstructing a store from a repository recovery package (`_reconstruct_large_objects` and
    `_reconstruct` in `storage/ark_repository_bundle.py`). */
module ArkReconstruct {
  import opened Common
  import opened Vault
  import opened RestoreCapsule
  import opened ArkTransport
  import opened ArkRepository
  import opened ArkPackage
  import Sorting

  // ----- file lists -----

  lemma CountOne(files: seq<File>, f: File)
    requires DistinctFiles(files) && f in files
    ensures multiset(files)[f] == 1
  {
    var i :| 0 <= i < |files| && files[i] == f;
    assert files == files[..i] + [f] + files[i + 1..];
    assert f !in files[..i] && f !in files[i + 1..];
  }

  /** Two directories with the same files are the same directory. */
  lemma SameMembers(a: seq<File>, b: seq<File>)
    requires DistinctFiles(a) && DistinctFiles(b) && forall f :: f in a <==> f in b
    ensures multiset(a) == multiset(b)
  {
    forall f ensures multiset(a)[f] == multiset(b)[f] {
      if f in a {
        CountOne(a, f);
        CountOne(b, f);
      } else {
        assert f !in multiset(a) && f !in multiset(b);
      }
    }
  }

  /** The files below `store/`. */
  function StoreFiles(files: seq<File>): seq<File> {
    if files == [] then []
    else StoreFiles(files[..|files| - 1]) + (if files[|files| - 1].logical.InStore() then [files[|files| - 1]] else [])
  }

  lemma {:induction false} StoreFilesAre(files: seq<File>)
    ensures forall f :: f in StoreFiles(files) <==> f in files && f.logical.InStore()
    ensures DistinctFiles(files) ==> DistinctFiles(StoreFiles(files))
  {
    if files != [] {
      StoreFilesAre(files[..|files| - 1]);
    }
  }

  predicate LogicalIn(l: Logical, files: seq<File>) {
    exists i :: 0 <= i < |files| && files[i].logical == l
  }

  lemma AddFile(files: seq<File>, f: File)
    requires DistinctFiles(files) && !LogicalIn(f.logical, files)
    ensures DistinctFiles(files + [f])
  {
  }

  // ----- plain files -----

  ghost predicate PlainHere(p: Profile, m: map<Bytes, Entry>, keys: set<Bytes>, f: File) {
    !f.logical.Transport() && p.path(f.logical) in keys && p.path(f.logical) in m && m[p.path(f.logical)].data == f.data
  }

  /** Everything that is not transport material is written where its path says. */
  method WritePlain(p: Profile, m: map<Bytes, Entry>) returns (r: Result<seq<File>, PackError>)
    requires p.Sound()
    ensures r.Ok? <==> forall k :: k in m ==> p.name(k).Some?
    ensures r.Ok? ==> DistinctFiles(r.value) && forall f :: f in r.value <==> PlainHere(p, m, m.Keys, f)
  {
    hide DistinctFiles;
    var todo := m.Keys;
    var written: seq<File> := [];
    NoFilesDistinct();
    while todo != {}
      invariant todo <= m.Keys && forall k :: k in m.Keys - todo ==> p.name(k).Some?
      invariant DistinctFiles(written) && forall f :: f in written <==> PlainHere(p, m, m.Keys - todo, f)
    {
      var k :| k in todo;
      var logical := p.name(k);
      if logical == None {
        return Err(UnsupportedPath);
      }
      assert p.path(logical.value) == k;
      if !logical.value.Transport() {
        var f := File(logical.value, m[k].data);
        forall i | 0 <= i < |written| ensures written[i].logical != f.logical {
          assert written[i] in written;
        }
        if LogicalIn(f.logical, written) {
          assert false;
        }
        AddFile(written, f);
        forall g ensures g in written + [f] <==> PlainHere(p, m, m.Keys - (todo - {k}), g) {
          SamePath(p, g.logical, k);
        }
        written := written + [f];
      } else {
        forall g ensures g in written <==> PlainHere(p, m, m.Keys - (todo - {k}), g) {
          SamePath(p, g.logical, k);
        }
      }
      todo := todo - {k};
    }
    assert m.Keys - todo == m.Keys;
    r := Ok(written);
  }

  lemma NoFilesDistinct()
    ensures DistinctFiles([])
  {
  }

  lemma SamePath(p: Profile, l: Logical, b: Bytes)
    requires p.Sound() && p.name(b).Some?
    ensures p.path(l) == b <==> p.name(b) == Some(l)
  {
    assert p.name(p.path(l)) == Some(l);
  }

  // ----- large objects -----

  ghost predicate ChunkHere(p: Profile, m: map<Bytes, Entry>, t: TransportManifest, cs: seq<Bytes>, i: nat)
    requires i < |cs| && i < |t.chunks|
  {
    var b := p.path(Chunk(t.sha, i));
    t.chunks[i] == ChunkRow(b, p.coder.content(cs[i]), |cs[i]|) && b in m && m[b].data == cs[i]
  }

  ghost predicate ChunksHere(p: Profile, m: map<Bytes, Entry>, t: TransportManifest, cs: seq<Bytes>) {
    |cs| == |t.chunks| && forall i: nat :: i < |cs| ==> ChunkHere(p, m, t, cs, i)
  }

  lemma ChunksUnique(p: Profile, m: map<Bytes, Entry>, t: TransportManifest, a: seq<Bytes>, b: seq<Bytes>)
    requires ChunksHere(p, m, t, a) && ChunksHere(p, m, t, b)
    ensures a == b
  {
    forall i | 0 <= i < |a| ensures a[i] == b[i] {
      assert ChunkHere(p, m, t, a, i) && ChunkHere(p, m, t, b, i);
    }
  }

  /** The reassembly loop: succeeds exactly when every chunk of the manifest is there, and writes them one
      after the other. */
  method Reassemble(p: Profile, m: map<Bytes, Entry>, t: TransportManifest) returns (r: Result<Bytes, PackError>)
    ensures r.Ok? <==> exists cs :: ChunksHere(p, m, t, cs)
    ensures forall cs :: ChunksHere(p, m, t, cs) ==> r == Ok(Joined(cs))
  {
    var content: Bytes := [];
    ghost var got: seq<Bytes> := [];
    for i := 0 to |t.chunks|
      invariant |got| == i && content == Joined(got) && forall j: nat :: j < i ==> ChunkHere(p, m, t, got, j)
    {
      var expected := p.path(Chunk(t.sha, i));
      if t.chunks[i].path != expected || expected !in m {
        assert forall cs :: ChunksHere(p, m, t, cs) ==> ChunkHere(p, m, t, cs, i);
        return Err(WrongChunk);
      }
      var data := m[expected].data;
      if p.coder.content(data) != t.chunks[i].sha || |data| != t.chunks[i].size {
        assert forall cs :: ChunksHere(p, m, t, cs) ==> ChunkHere(p, m, t, cs, i);
        return Err(WrongChunk);
      }
      content := content + data;
      ghost var next := got + [data];
      assert next[..i] == got;
      forall j: nat | j < i + 1 ensures ChunkHere(p, m, t, next, j) {
        if j < i { assert ChunkHere(p, m, t, got, j); }
      }
      got := next;
    }
    assert ChunksHere(p, m, t, got);
    forall cs | ChunksHere(p, m, t, cs) ensures cs == got { ChunksUnique(p, m, t, cs, got); }
    r := Ok(content);
  }

  /** The transport entries of this object have arrived and its target is free. */
  ghost predicate ObjectHere(p: Profile, m: map<Bytes, Entry>, data: Bytes, target: seq<File>, f: File, size: nat)
    requires size > 0
  {
    && f.logical.Object? && p.coder.content(f.data) == f.logical.digest
    && var cs := Chunks(f.data, size);
       var t := DescribeChunks(p, f, f.logical.digest, cs);
       data == p.write(t) && |cs| <= MAX_LARGE_OBJECT_CHUNKS && ChunksHere(p, m, t, cs) && !LogicalIn(f.logical, target)
  }

  /** What one manifest restores, whoever made it: a named object whose chunks are all there and hash to it. */
  ghost predicate Restores(p: Profile, m: map<Bytes, Entry>, data: Bytes, f: File) {
    && p.read(data).Some? && f.logical.Object? && p.name(p.read(data).value.target) == Some(f.logical)
    && var t := p.read(data).value;
       && 0 < |t.chunks| <= MAX_LARGE_OBJECT_CHUNKS && p.coder.content(f.data) == t.sha && |f.data| == t.size
       && exists cs :: ChunksHere(p, m, t, cs) && f.data == Joined(cs)
  }

  lemma ArrivedRestores(p: Profile, m: map<Bytes, Entry>, data: Bytes, target: seq<File>, f: File, size: nat)
    requires p.Sound() && size > 0 && ObjectHere(p, m, data, target, f, size)
    ensures Restores(p, m, data, f) && !LogicalIn(f.logical, target)
  {
    hide ChunksHere, Chunks, Joined, LogicalIn;
    ChunksJoin(f.data, size);
    assert Chunks(f.data, size) != [];
    assert ChunksHere(p, m, p.read(data).value, Chunks(f.data, size));
    assert f.data == Joined(Chunks(f.data, size));
  }

  /** One manifest of `_reconstruct_large_objects`. */
  method RestoreObject(p: Profile, m: map<Bytes, Entry>, data: Bytes, target: seq<File>)
      returns (r: Result<File, PackError>)
    ensures forall f :: r == Ok(f) <==> Restores(p, m, data, f) && !LogicalIn(f.logical, target)
  {
    hide ChunksHere, LogicalIn, Joined;
    var t := p.read(data);
    if t == None {
      return Err(WrongManifest);
    }
    var logical := p.name(t.value.target);
    if logical == None || !logical.value.Object? {
      return Err(WrongManifest);
    }
    if t.value.chunks == [] || |t.value.chunks| > MAX_LARGE_OBJECT_CHUNKS {
      return Err(WrongManifest);
    }
    if LogicalIn(logical.value, target) {
      return Err(TargetExists);
    }
    var content := Reassemble(p, m, t.value);
    if content.Err? {
      return Err(content.error);
    }
    if p.coder.content(content.value) != t.value.sha || |content.value| != t.value.size {
      return Err(WrongObject);
    }
    r := Ok(File(logical.value, content.value));
  }

  /** All transport entries of these files have arrived. */
  ghost predicate Arriving(p: Profile, m: map<Bytes, Entry>, all: multiset<File>, files: seq<File>, size: nat)
    requires size > 0
  {
    && Indexes(m, Transport(p, all, files, size)) && DistinctFiles(files) && ObjectsNamed(p, files)
      && ChunksLimited(files, size)
    && forall i :: 0 <= i < |files| ==> !files[i].logical.Transport()
  }

  lemma EntryArrived(p: Profile, m: map<Bytes, Entry>, all: multiset<File>, files: seq<File>, size: nat, i: nat,
      e: Entry)
    requires size > 0 && Arriving(p, m, all, files, size) && i < |files| && e in Carried(p, all, files[i], size)
    ensures e.path in m && m[e.path] == e
  {
    hide Carried, Transport;
    TransportHas(p, all, files, size, e);
  }

  /** Whatever is in the map was put there by one of the files. */
  lemma SenderOf(p: Profile, m: map<Bytes, Entry>, all: multiset<File>, files: seq<File>, size: nat, k: Bytes)
      returns (i: nat)
    requires size > 0 && Arriving(p, m, all, files, size) && k in m
    ensures i < |files| && m[k] in Carried(p, all, files[i], size) && m[k].path == k
  {
    hide Carried, Transport;
    TransportHas(p, all, files, size, m[k]);
    i :| 0 <= i < |files| && m[k] in Carried(p, all, files[i], size);
  }

  lemma PathNamed(p: Profile, m: map<Bytes, Entry>, all: multiset<File>, files: seq<File>, size: nat, k: Bytes)
    requires p.Sound() && size > 0 && Arriving(p, m, all, files, size) && k in m
    ensures p.name(k).Some?
    ensures !p.name(k).value.Transport() ==> exists i ::
      0 <= i < |files| && files[i].logical == p.name(k).value && !files[i].logical.Object?
  {
    hide Carried, Transport, Arriving;
    var i := SenderOf(p, m, all, files, size, k);
    NotTransport(p, m, all, files, size, i);
    CarriedSpeaks(p, all, files[i], size);
  }

  lemma NotTransport(p: Profile, m: map<Bytes, Entry>, all: multiset<File>, files: seq<File>, size: nat, i: nat)
    requires size > 0 && Arriving(p, m, all, files, size) && i < |files|
    ensures !files[i].logical.Transport() && files[i] in files
  {
  }

  /** The plain files in the map are the files that are not objects. */
  lemma PlainAre(p: Profile, m: map<Bytes, Entry>, all: multiset<File>, files: seq<File>, size: nat, f: File)
    requires p.Sound() && size > 0 && Arriving(p, m, all, files, size)
    ensures PlainHere(p, m, m.Keys, f) <==> f in files && !f.logical.Object?
  {
    hide Transport, Arriving, Chunks;
    assert p.name(p.path(f.logical)) == Some(f.logical);
    if PlainHere(p, m, m.Keys, f) {
      var k := p.path(f.logical);
      var i := SenderOf(p, m, all, files, size, k);
      NotTransport(p, m, all, files, size, i);
      CarriedSpeaks(p, all, files[i], size);
    }
    if f in files && !f.logical.Object? {
      var i :| 0 <= i < |files| && files[i] == f;
      NotTransport(p, m, all, files, size, i);
      EntryArrived(p, m, all, files, size, i, Carried(p, all, f, size)[0]);
    }
  }

  /** A carrier entry comes from an object, all of whose chunks are in the map. */
  lemma CarrierArrived(p: Profile, m: map<Bytes, Entry>, all: multiset<File>, files: seq<File>, size: nat, k: Bytes,
      target: seq<File>)
      returns (f: File)
    requires p.Sound() && size > 0 && Arriving(p, m, all, files, size) && k in m && p.name(k).Some?
      && p.name(k).value.Carrier?
    ensures f in files && f.logical.Object? && p.name(k) == Some(Carrier(f.logical.digest))
    ensures !LogicalIn(f.logical, target) ==> ObjectHere(p, m, m[k].data, target, f, size)
  {
    hide Transport, Arriving, Chunks, LogicalIn;
    var i := SenderOf(p, m, all, files, size, k);
    NotTransport(p, m, all, files, size, i);
    f := files[i];
    CarriedSpeaks(p, all, f, size);
    var d, cs := f.logical.digest, Chunks(f.data, size);
    OnlyCarrier(p, all, f, size, m[k]);
    ObjectLimits(p, m, all, files, size, i);
    var t := DescribeChunks(p, f, d, cs);
    forall j: nat | j < |cs| ensures ChunkHere(p, m, t, cs, j) {
      ChunkCarried(p, all, f, size, j);
      EntryArrived(p, m, all, files, size, i, ChunkEntry(p, p.privacy(all, f.logical), d, j, cs[j]));
    }
  }

  lemma ChunkCarried(p: Profile, all: multiset<File>, f: File, size: nat, j: nat)
    requires size > 0 && f.logical.Object? && j < |Chunks(f.data, size)|
    ensures ChunkEntry(p, p.privacy(all, f.logical), f.logical.digest, j, Chunks(f.data, size)[j]) in Carried(p, all, f,
      size)
  {
    assert Carried(p, all, f, size)[j] == ChunkEntry(p, p.privacy(all, f.logical), f.logical.digest, j,
      Chunks(f.data, size)[j]);
  }

  lemma OnlyCarrier(p: Profile, all: multiset<File>, f: File, size: nat, e: Entry)
    requires p.Sound() && size > 0 && !f.logical.Transport() && e in Carried(p, all, f, size)
    requires p.name(e.path).Some? && p.name(e.path).value.Carrier?
    ensures f.logical.Object? && e == CarrierEntry(p, p.privacy(all, f.logical), f, f.logical.digest,
      Chunks(f.data, size))
    ensures p.name(e.path) == Some(Carrier(f.logical.digest))
  {
    hide Chunks;
    var es := Carried(p, all, f, size);
    if f.logical.Object? {
      forall j: nat | j < |es| - 1 ensures p.name(es[j].path) == Some(Chunk(f.logical.digest, j)) {
        assert es[j] == ChunkEntry(p, p.privacy(all, f.logical), f.logical.digest, j, Chunks(f.data, size)[j]);
      }
    }
  }

  lemma ObjectLimits(p: Profile, m: map<Bytes, Entry>, all: multiset<File>, files: seq<File>, size: nat, i: nat)
    requires size > 0 && Arriving(p, m, all, files, size) && i < |files| && files[i].logical.Object?
    ensures p.coder.content(files[i].data) == files[i].logical.digest
      && |Chunks(files[i].data, size)| <= MAX_LARGE_OBJECT_CHUNKS
  {
  }

  /** Which files are back once the carriers in `done` have been handled. */
  ghost predicate Arrived(p: Profile, files: seq<File>, target: seq<File>, done: set<Bytes>) {
    forall f :: f in target <==> f in files && (f.logical.Object? ==> p.path(Carrier(f.logical.digest)) in done)
  }

  predicate IsCarrier(p: Profile, k: Bytes) {
    p.name(k).Some? && p.name(k).value.Carrier?
  }

  function Carriers(p: Profile, m: map<Bytes, Entry>): set<Bytes> {
    set k | k in m && IsCarrier(p, k)
  }

  ghost predicate RestoredBy(p: Profile, m: map<Bytes, Entry>, k: Bytes, f: File) {
    k in m && Restores(p, m, m[k].data, f)
  }

  /** Each of these carriers restores an object that is not there yet, and no two restore the same one. */
  ghost predicate Restorable(p: Profile, m: map<Bytes, Entry>, plain: seq<File>, carriers: set<Bytes>) {
    && (forall k :: k in carriers ==> exists f :: RestoredBy(p, m, k, f) && !LogicalIn(f.logical, plain))
    && (forall k, l, f, g ::
      k in carriers && l in carriers && k != l && RestoredBy(p, m, k, f) && RestoredBy(p, m, l, g) ==>
      f.logical != g.logical)
  }

  /** The target holds the plain files and what these carriers restore. */
  ghost predicate Holds(p: Profile, m: map<Bytes, Entry>, plain: seq<File>, carriers: set<Bytes>, target: seq<File>) {
    forall f :: f in target <==> f in plain || exists k :: k in carriers && RestoredBy(p, m, k, f)
  }

  lemma RestoredOnce(p: Profile, m: map<Bytes, Entry>, k: Bytes, f: File, g: File)
    requires RestoredBy(p, m, k, f) && RestoredBy(p, m, k, g)
    ensures f == g
  {
    hide ChunksHere, Joined;
    var t := p.read(m[k].data).value;
    var cs :| ChunksHere(p, m, t, cs) && f.data == Joined(cs);
    var ds :| ChunksHere(p, m, t, ds) && g.data == Joined(ds);
    ChunksUnique(p, m, t, cs, ds);
  }

  lemma InTarget(l: Logical, target: seq<File>)
    ensures LogicalIn(l, target) <==> exists f :: f in target && f.logical == l
  {
    if LogicalIn(l, target) {
      var i :| 0 <= i < |target| && target[i].logical == l;
      assert target[i] in target;
    }
  }

  lemma OneMoreRestored(p: Profile, m: map<Bytes, Entry>, plain: seq<File>, done: set<Bytes>, target: seq<File>,
      k: Bytes, f: File)
    requires Restorable(p, m, plain, done) && Holds(p, m, plain, done, target) && k !in done
    requires RestoredBy(p, m, k, f) && !LogicalIn(f.logical, target)
    ensures Restorable(p, m, plain, done + {k}) && Holds(p, m, plain, done + {k}, target + [f])
  {
    hide RestoredBy, LogicalIn;
    InTarget(f.logical, target);
    InTarget(f.logical, plain);
    forall g | RestoredBy(p, m, k, g) ensures g == f { RestoredOnce(p, m, k, f, g); }
    assert !LogicalIn(f.logical, plain);
    forall l, g | l in done && RestoredBy(p, m, l, g) ensures g.logical != f.logical { assert g in target; }
  }

  lemma CannotRestore(p: Profile, m: map<Bytes, Entry>, plain: seq<File>, carriers: set<Bytes>, done: set<Bytes>,
      target: seq<File>, k: Bytes)
    requires Holds(p, m, plain, done, target) && done <= carriers && k in carriers && k !in done
    requires forall f :: RestoredBy(p, m, k, f) ==> LogicalIn(f.logical, target)
    ensures !Restorable(p, m, plain, carriers)
  {
    hide RestoredBy, LogicalIn;
    forall f | RestoredBy(p, m, k, f) && !LogicalIn(f.logical, plain)
      ensures exists l, g :: l in done && RestoredBy(p, m, l, g) && g.logical == f.logical
    {
      InTarget(f.logical, target);
      InTarget(f.logical, plain);
      var g :| g in target && g.logical == f.logical;
      var l :| l in done && RestoredBy(p, m, l, g);
    }
  }

  /** `_reconstruct_large_objects`: succeeds exactly when every carrier restores an object of its own, and adds
      exactly those objects. */
  method RestoreObjects(p: Profile, m: map<Bytes, Entry>, plain: seq<File>, ghost all: multiset<File>,
      ghost files: seq<File>, ghost size: nat)
      returns (r: Result<seq<File>, PackError>)
    requires p.Sound() && size > 0 && DistinctFiles(plain)
    ensures r.Ok? <==> Restorable(p, m, plain, Carriers(p, m))
    ensures r.Ok? ==> DistinctFiles(r.value) && Holds(p, m, plain, Carriers(p, m), r.value)
    ensures Arriving(p, m, all, files, size) && Arrived(p, files, plain, {}) ==> r.Ok? && forall f :: f in r.value <==>
      f in files
  {
    hide Arriving, Arrived, DistinctFiles, ObjectHere, LogicalIn, Restores, Restorable, Holds;
    var todo := Carriers(p, m);
    ghost var carriers := todo;
    var target := plain;
    ghost var good := Arriving(p, m, all, files, size) && Arrived(p, files, plain, {});
    assert carriers - todo == {};
    NothingRestored(p, m, plain);
    while todo != {}
      invariant todo <= carriers && DistinctFiles(target)
      invariant Restorable(p, m, plain, carriers - todo) && Holds(p, m, plain, carriers - todo, target)
      invariant good ==> Arrived(p, files, target, carriers - todo)
    {
      var k :| k in todo;
      ghost var f := File(Stray([]), []);
      if good {
        f := CarrierArrived(p, m, all, files, size, k, target);
        NotBackYet(p, m, all, files, size, target, carriers - todo, f, k);
      }
      if good { ArrivedRestores(p, m, m[k].data, target, f, size); }
      var restored := RestoreObject(p, m, m[k].data, target);
      if restored.Err? {
        CannotRestore(p, m, plain, carriers, carriers - todo, target, k);
        return Err(restored.error);
      }
      AddFile(target, restored.value);
      OneMoreRestored(p, m, plain, carriers - todo, target, k, restored.value);
      if good { OneMoreBack(p, m, all, files, size, target, carriers - todo, f, k); }
      target := target + [restored.value];
      assert carriers - (todo - {k}) == (carriers - todo) + {k};
      todo := todo - {k};
    }
    assert carriers - todo == carriers;
    if good { AllBack(p, m, all, files, size, target, carriers); }
    r := Ok(target);
  }

  lemma NothingRestored(p: Profile, m: map<Bytes, Entry>, plain: seq<File>)
    ensures Restorable(p, m, plain, {}) && Holds(p, m, plain, {}, plain)
  {
  }

  lemma NotBackYet(p: Profile, m: map<Bytes, Entry>, all: multiset<File>, files: seq<File>, size: nat,
      target: seq<File>, done: set<Bytes>, f: File, k: Bytes)
    requires p.Sound() && size > 0 && Arriving(p, m, all, files, size) && Arrived(p, files, target, done)
    requires f in files && f.logical.Object? && p.name(k) == Some(Carrier(f.logical.digest)) && k !in done
    ensures !LogicalIn(f.logical, target)
  {
    hide Transport, Indexes;
    assert p.path(Carrier(f.logical.digest)) == k;
    forall i | 0 <= i < |target| ensures target[i].logical != f.logical {
      assert target[i] in target;
    }
  }

  lemma OneMoreBack(p: Profile, m: map<Bytes, Entry>, all: multiset<File>, files: seq<File>, size: nat,
      target: seq<File>, done: set<Bytes>, f: File, k: Bytes)
    requires p.Sound() && size > 0 && Arriving(p, m, all, files, size) && Arrived(p, files, target, done)
    requires f in files && f.logical.Object? && p.name(k) == Some(Carrier(f.logical.digest))
    ensures Arrived(p, files, target + [f], done + {k})
  {
    hide Transport, Indexes, ObjectsNamed, ChunksLimited;
    forall g | g in files && g.logical.Object? && p.path(Carrier(g.logical.digest)) == k ensures g == f {
      assert p.name(k) == Some(Carrier(g.logical.digest));
      assert g.logical == f.logical;
    }
    assert p.path(Carrier(f.logical.digest)) == k;
  }

  lemma AllBack(p: Profile, m: map<Bytes, Entry>, all: multiset<File>, files: seq<File>, size: nat, target: seq<File>,
      done: set<Bytes>)
    requires p.Sound() && size > 0 && Arriving(p, m, all, files, size) && Arrived(p, files, target, done)
    requires forall k :: k in done <==> k in m && IsCarrier(p, k)
    ensures forall f :: f in target <==> f in files
  {
    hide Transport, Arriving, Chunks;
    forall f | f in files && f.logical.Object? ensures p.path(Carrier(f.logical.digest)) in done {
      var i :| 0 <= i < |files| && files[i] == f;
      var es := Carried(p, all, f, size);
      assert es[|es| - 1].path == p.path(Carrier(f.logical.digest));
      EntryArrived(p, m, all, files, size, i, es[|es| - 1]);
      assert p.name(p.path(Carrier(f.logical.digest))) == Some(Carrier(f.logical.digest));
    }
  }

  // ----- the whole reconstruction -----

  lemma SourcesAre(p: Profile, o: Origin)
    requires p.Sound() && o.WellFormed()
    ensures multiset(Sources(p, o)) == multiset(o.tree + o.support) && DistinctFiles(Sources(p, o))
    ensures forall f :: f in Sources(p, o) <==> f in o.tree || f in o.support
  {
    var files, given := Sources(p, o), o.tree + o.support;
    Sorting.SortSorts(given, FileKey(p));
    FileKeysDistinct(p, given);
    Sorting.KeysDistinctByMultiset(given, files, FileKey(p));
    forall i, j | 0 <= i < j < |files| ensures files[i].logical != files[j].logical {
      assert FileKey(p)(files[i]) != FileKey(p)(files[j]);
    }
    forall f ensures f in files <==> f in o.tree || f in o.support {
      assert f in files <==> f in multiset(files);
      assert f in given <==> f in multiset(given);
    }
  }

  lemma SourcesArrive(p: Profile, o: Origin, m: map<Bytes, Entry>)
    requires p.Sound() && o.WellFormed() && Collectable(p, o.tree) && ChunksLimited(Sources(p, o), o.size)
    requires Indexes(m, Entries(p, o))
    ensures Arriving(p, m, multiset(o.tree), Sources(p, o), o.size)
  {
    hide Transport, Indexes, Sources, DistinctFiles;
    var files := Sources(p, o);
    SourcesAre(p, o);
    forall i | 0 <= i < |files|
      ensures !files[i].logical.Transport()
      ensures files[i].logical.Object? ==> p.coder.content(files[i].data) == files[i].logical.digest
    {
      assert files[i] in files;
      if files[i] in o.tree {
        var j :| 0 <= j < |o.tree| && o.tree[j] == files[i];
      } else {
        var j :| 0 <= j < |o.support| && o.support[j] == files[i];
      }
    }
  }

  lemma SourcesDistinctPaths(p: Profile, o: Origin)
    requires p.Sound() && o.WellFormed()
    ensures PathsDistinct(Entries(p, o))
  {
    hide Transport, Sources, DistinctFiles, PathsDistinct;
    SourcesAre(p, o);
    var files := Sources(p, o);
    forall i | 0 <= i < |files| ensures !files[i].logical.Transport() {
      assert files[i] in files;
    }
    TransportDistinct(p, multiset(o.tree), files, o.size);
  }

  // ----- when a package can be built -----

  ghost predicate ManifestSmall(p: Profile, g: seq<Entry>) {
    |p.coder.encode(ManifestFor(p.coder, Sorted(g)))| <= MAX_MANIFEST_BYTES
  }

  /** A group within the bounds of the grouping never meets the limits on entries, payload or file size, so only
      an invalid entry or a long manifest can keep it from becoming a capsule. */
  lemma GroupFitsIff(p: Profile, g: seq<Entry>)
    requires Fits(g) && g != [] && PathsDistinct(g)
    ensures CapsuleFits(p, g) <==> EntriesValid(p.coder, g) && ManifestSmall(p, g)
  {
    hide ManifestFor, PathsDistinct, EntriesValid, BigEndian;
    SortedPermutes(g);
    TotalSizeByMultiset(g, Sorted(g));
    PathsDistinctByMultiset(g, Sorted(g));
  }

  lemma GroupDistinct(gs: seq<seq<Entry>>, k: nat)
    requires PathsDistinct(Flat(gs)) && k < |gs|
    ensures PathsDistinct(gs[k])
  {
    hide Flat, PathsDistinct;
    GroupStretch(gs, k);
    StretchDistinct(Flat(gs), |Flat(gs[..k])|, |Flat(gs[..k + 1])|);
  }

  lemma StretchDistinct(es: seq<Entry>, i: nat, j: nat)
    requires PathsDistinct(es) && i <= j <= |es|
    ensures PathsDistinct(es[i..j])
  {
    forall a, b | 0 <= a < b < |es[i..j]| ensures es[i..j][a].path != es[i..j][b].path {
      assert es[i..j][a] == es[i + a] && es[i..j][b] == es[i + b];
    }
  }

  /** When a package can be built: the store holds together, no object has too many pieces, no piece is larger
      than a capsule, there is something to send, and the one tight grouping makes no more capsules than the
      limit, each of valid entries with a manifest within its limit. */
  lemma BuildableIff(p: Profile, o: Origin)
    requires p.Sound() && o.WellFormed()
    ensures Buildable(p, o) <==>
      && Collectable(p, o.tree) && ChunksLimited(Sources(p, o), o.size)
      && AllSmall(Entries(p, o)) && Entries(p, o) != []
      && exists gs :: Packing(gs, Entries(p, o)) && Tight(gs) && GroupsValid(p, gs)
  {
    hide Sources, Entries, Collectable, ChunksLimited, AllSmall, Tight, CapsuleFits, PathsDistinct, Flat;
    SourcesDistinctPaths(p, o);
    forall gs | Packing(gs, Entries(p, o))
      ensures GroupsFit(p, gs) <==> Entries(p, o) != [] && GroupsValid(p, gs)
    {
      PackingFlat(gs, Entries(p, o));
      FlatEmpty(gs);
      forall k | 0 <= k < |gs|
        ensures CapsuleFits(p, gs[k]) <==> EntriesValid(p.coder, gs[k]) && ManifestSmall(p, gs[k])
      {
        GroupDistinct(gs, k);
        PackingFits(gs, Entries(p, o), k);
        GroupFitsIff(p, gs[k]);
      }
    }
  }

  ghost predicate GroupsValid(p: Profile, gs: seq<seq<Entry>>) {
    |gs| <= MAX_CAPSULE_COUNT
    && forall k :: 0 <= k < |gs| ==> EntriesValid(p.coder, gs[k]) && ManifestSmall(p, gs[k])
  }

  lemma PackingFits(gs: seq<seq<Entry>>, entries: seq<Entry>, k: nat)
    requires Packing(gs, entries) && k < |gs|
    ensures Fits(gs[k]) && gs[k] != []
  {
  }

  lemma FlatEmpty(gs: seq<seq<Entry>>)
    requires forall k :: 0 <= k < |gs| ==> gs[k] != []
    ensures Flat(gs) == [] <==> gs == []
  {
  }

  /** The store read back is the store sent. */
  lemma StoreReturns(p: Profile, o: Origin, target: seq<File>)
    requires p.Sound() && o.WellFormed() && DistinctFiles(target) && Collectable(p, o.tree)
    requires forall f :: f in target <==> f in Sources(p, o)
    ensures multiset(StoreFiles(target)) == multiset(o.tree) && multiset(target) == multiset(o.tree + o.support)
    ensures Collectable(p, StoreFiles(target)) && Fingerprint(p, StoreFiles(target)) == Fingerprint(p, o.tree)
    ensures |StoreFiles(target)| == |o.tree|
  {
    hide Sources, Fingerprint, DistinctFiles, Collectable, StoreFiles, AllInStore, NoneInStore;
    var back := StoreFiles(target);
    SourcesAre(p, o);
    StoreFilesAre(target);
    StoreMembers(p, o, target);
    SameMembers(back, o.tree);
    SameMembers(target, Sources(p, o));
    assert |multiset(back)| == |back| && |multiset(o.tree)| == |o.tree|;
    FingerprintOrderless(p, back, o.tree);
    CollectableSame(p, back, o.tree);
  }

  lemma StoreMembers(p: Profile, o: Origin, target: seq<File>)
    requires o.WellFormed() && DistinctFiles(target)
    requires forall f :: f in target <==> f in Sources(p, o)
    requires multiset(Sources(p, o)) == multiset(o.tree + o.support)
    ensures forall f :: f in StoreFiles(target) <==> f in o.tree
    ensures DistinctFiles(o.tree)
  {
    hide Sources, StoreFiles;
    StoreFilesAre(target);
    forall f ensures f in target <==> f in o.tree || f in o.support {
      assert f in Sources(p, o) <==> f in multiset(o.tree + o.support);
    }
    assert forall i :: 0 <= i < |o.tree| ==> (o.tree + o.support)[i] == o.tree[i];
  }

  lemma CollectableSame(p: Profile, a: seq<File>, b: seq<File>)
    requires multiset(a) == multiset(b) && Collectable(p, b)
    ensures Collectable(p, a)
  {
    assert |multiset(a)| == |a| && |multiset(b)| == |b|;
    forall i | 0 <= i < |a| && a[i].logical.Object? ensures p.coder.content(a[i].data) == a[i].logical.digest {
      assert a[i] in multiset(b);
    }
  }

  /** `_reconstruct`.  For any origin and any grouping of its entries into capsules, whatever the chunk
      size, a package that carries the origin is accepted and gives back exactly its files.  And no
      package, however made, is accepted under the fingerprint of a store other than the one restored. */
  method Reconstruct(p: Profile, pkg: Package, ghost o: Origin, ghost gs: seq<seq<Entry>>)
      returns (r: Result<seq<File>, PackError>)
    requires p.Sound() && o.WellFormed()
    ensures Carries(p, pkg, o, gs) ==> r.Ok? && multiset(r.value) == multiset(o.tree + o.support)
    ensures r.Ok? ==> forall tree :: Fingerprint(p, tree) == pkg.basis.fingerprint ==>
      multiset(StoreFiles(r.value)) == multiset(tree)
  {
    hide Collectable, ChunksLimited, CapsulesHold, Flat, Fingerprint, Indexes, DistinctFiles, AllInStore, NoneInStore;
    hide Arriving, Arrived, PathsDistinct, StoreFiles, Transport, Sources, PlainHere;
    ghost var good := Carries(p, pkg, o, gs);
    if good { SourcesDistinctPaths(p, o); }
    if good { CarriesLoads(p, pkg, o, gs); }
    var entries := LoadCapsules(p, pkg);
    if entries.Err? {
      return Err(entries.error);
    }
    var m := entries.value;
    if good {
      IndexesSame(m, Flat(SortedAll(gs)), Flat(gs));
      SourcesArrive(p, o, m);
    }
    var plain := WritePlain(p, m);
    if good { PlainWritten(p, o, m, plain); }
    if plain.Err? {
      return Err(plain.error);
    }
    var target := RestoreObjects(p, m, plain.value, multiset(o.tree), Sources(p, o), o.size);
    if target.Err? {
      return Err(target.error);
    }
    if good { StoreReturns(p, o, target.value); }
    var store := StoreFiles(target.value);
    if !Collectable(p, store) {
      return Err(InvalidStore);
    }
    if Fingerprint(p, store) != pkg.basis.fingerprint || |store| != pkg.basis.entryCount
      || p.strongest(multiset(store)) != pkg.basis.privacy {
      return Err(WrongFingerprint);
    }
    forall tree | Fingerprint(p, tree) == pkg.basis.fingerprint ensures multiset(store) == multiset(tree) {
      FingerprintIdentifies(p, store, tree);
    }
    r := Ok(target.value);
  }

  lemma CarriesLoads(p: Profile, pkg: Package, o: Origin, gs: seq<seq<Entry>>)
    requires p.Sound() && o.size > 0 && Carries(p, pkg, o, gs) && PathsDistinct(Entries(p, o))
    ensures LoadsAs(p, pkg, SortedAll(gs))
    ensures forall e :: e in Flat(SortedAll(gs)) <==> e in Flat(gs)
  {
    hide Entries, Collectable, ChunksLimited, Fingerprint, CapsulesHold, PathsDistinct, Flat;
    LoadableLoads(p, pkg, gs);
  }

  /** In a package that carries `o`, the plain part is written without error and is all but the objects. */
  lemma PlainWritten(p: Profile, o: Origin, m: map<Bytes, Entry>, plain: Result<seq<File>, PackError>)
    requires p.Sound() && o.size > 0 && Arriving(p, m, multiset(o.tree), Sources(p, o), o.size)
    requires plain.Ok? <==> forall k :: k in m ==> p.name(k).Some?
    requires plain.Ok? ==> forall f :: f in plain.value <==> PlainHere(p, m, m.Keys, f)
    ensures plain.Ok? && Arrived(p, Sources(p, o), plain.value, {})
  {
    hide Arriving, PlainHere, Sources;
    forall k | k in m ensures p.name(k).Some? {
      PathNamed(p, m, multiset(o.tree), Sources(p, o), o.size, k);
    }
    forall f ensures f in plain.value <==> f in Sources(p, o) && !f.logical.Object? {
      PlainAre(p, m, multiset(o.tree), Sources(p, o), o.size, f);
    }
  }
}
