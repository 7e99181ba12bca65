/** The repository recovery package (`storage/ark_repository_bundle.py`): a whole store goes out in
    capsules and comes back file by file.  A store is the list of its files; their order, the chunk
    size and the grouping into capsules do not matter. */
module ArkRepository {
  import opened Common
  import opened Vault
  import opened RestoreCapsule
  import opened ArkTransport
  import Sorting

  const MAX_PACKAGE_FILES := 250_000
  const MAX_CAPSULE_FILE_BYTES := 72 * 1024 * 1024
  const MAX_CAPSULE_COUNT := 10_000

  /** A path below the package root, taken apart.  Support files are the schemas and the lattice
      profile, optional ones the index descriptors and projections. */
  datatype Logical =
    | Object(digest: Id) | Record(name: Bytes)
    | Support(name: Bytes) | Optional(name: Bytes)
    | Chunk(owner: Id, index: nat) | Carrier(owner: Id) | Stray(name: Bytes)
  {
    predicate InStore() { Object? || Record? }

    predicate Transport() { Chunk? || Carrier? || Stray? }

    function Recovery(): Recovery {
      match this
      case Support(_) => NearShell
      case Optional(_) => WiggleZone
      case Record(_) => MidShell
      case Carrier(_) => MidShell
      case _ => OuterShell
    }
  }

  datatype File = File(logical: Logical, data: Bytes)

  datatype ChunkRow = ChunkRow(path: Bytes, sha: Id, size: int)

  datatype TransportManifest = TransportManifest(target: Bytes, sha: Id, size: int, chunks: seq<ChunkRow>)

  /** One line of the canonical inventory. */
  datatype Row = Row(path: Bytes, sha: Id, size: nat, kind: string, privacy: Privacy)

  datatype CapsuleRow = CapsuleRow(sha: Id, size: int, entryCount: int)

  datatype Basis = Basis(fingerprint: Id, privacy: Privacy, entryCount: int, rows: seq<CapsuleRow>)

  datatype Package = Package(id: Id, basis: Basis, capsules: seq<Bytes>)

  /** Codecs, path syntax and the registry checks, which depend on the store as a whole. */
  datatype Profile = Profile(
    coder: Coder, path: Logical -> Bytes, name: Bytes -> Option<Logical>, kind: Logical -> string,
    privacy: (multiset<File>, Logical) -> Privacy, strongest: multiset<File> -> Privacy, valid: multiset<File> -> bool,
    write: TransportManifest -> Bytes, read: Bytes -> Option<TransportManifest>, inventory: seq<Row> -> Id,
      package: Basis -> Id)
  {
    ghost predicate Sound() {
      && coder.Sound() && Injective(coder.content) && Injective(inventory)
      && (forall l :: name(path(l)) == Some(l)) && (forall b, l :: name(b) == Some(l) ==> path(l) == b)
      && (forall m :: read(write(m)) == Some(m))
    }
  }

  datatype PackError =
    | InvalidStore | TransportFailed(t: TransportError) | CapsuleFailed(e: Error) | CapsuleTooLarge | TooManyCapsules
    | NoCapsules
    | WrongPackage | WrongCapsule | DuplicateLogical | UnsupportedPath | WrongManifest | TargetExists | WrongChunk
    | WrongObject | WrongFingerprint

  // ----- the canonical inventory -----

  predicate DistinctFiles(files: seq<File>) {
    forall i, j :: 0 <= i < j < |files| ==> files[i].logical != files[j].logical
  }

  predicate AllInStore(files: seq<File>) {
    forall i :: 0 <= i < |files| ==> files[i].logical.InStore()
  }

  predicate NoneInStore(files: seq<File>) {
    forall i :: 0 <= i < |files| ==> !files[i].logical.InStore() && !files[i].logical.Transport()
  }

  function FileKey(p: Profile): File -> seq<int> {
    (f: File) => p.path(f.logical)
  }

  function RowOf(p: Profile, all: multiset<File>, f: File): Row {
    Row(p.path(f.logical), p.coder.content(f.data), |f.data|, p.kind(f.logical), p.privacy(all, f.logical))
  }

  function RowsOf(p: Profile, all: multiset<File>, files: seq<File>): seq<Row> {
    seq(|files|, i requires 0 <= i < |files| => RowOf(p, all, files[i]))
  }

  function Fingerprint(p: Profile, tree: seq<File>): Id {
    p.inventory(RowsOf(p, multiset(tree), Sorting.SortBy(tree, FileKey(p))))
  }

  /** Every object is named by its content hash, and the registries hold together. */
  predicate Collectable(p: Profile, tree: seq<File>) {
    && p.valid(multiset(tree)) && |tree| <= MAX_PACKAGE_FILES && ObjectsNamed(p, tree)
  }

  predicate ObjectsNamed(p: Profile, tree: seq<File>) {
    forall i :: 0 <= i < |tree| && tree[i].logical.Object? ==> p.coder.content(tree[i].data) == tree[i].logical.digest
  }

  lemma FileKeysDistinct(p: Profile, files: seq<File>)
    requires p.Sound() && DistinctFiles(files)
    ensures Sorting.KeysDistinct(files, FileKey(p))
  {
    forall i, j | 0 <= i < j < |files| ensures FileKey(p)(files[i]) != FileKey(p)(files[j]) {
      assert p.name(p.path(files[i].logical)) == Some(files[i].logical)
        && p.name(p.path(files[j].logical)) == Some(files[j].logical);
    }
  }

  /** The fingerprint does not depend on the order in which a directory lists its files. */
  lemma FingerprintOrderless(p: Profile, a: seq<File>, b: seq<File>)
    requires p.Sound() && DistinctFiles(a) && multiset(a) == multiset(b)
    ensures Fingerprint(p, a) == Fingerprint(p, b)
  {
    FileKeysDistinct(p, a);
    Sorting.SortPermutation(a, b, FileKey(p));
  }

  /** Equal fingerprints mean equal stores, byte for byte. */
  lemma FingerprintIdentifies(p: Profile, a: seq<File>, b: seq<File>)
    requires p.Sound() && Fingerprint(p, a) == Fingerprint(p, b)
    ensures multiset(a) == multiset(b)
  {
    Sorting.SortSorts(a, FileKey(p));
    Sorting.SortSorts(b, FileKey(p));
    SameRows(p, multiset(a), Sorting.SortBy(a, FileKey(p)), multiset(b), Sorting.SortBy(b, FileKey(p)));
  }

  lemma SameRows(p: Profile, am: multiset<File>, a: seq<File>, bm: multiset<File>, b: seq<File>)
    requires p.Sound() && p.inventory(RowsOf(p, am, a)) == p.inventory(RowsOf(p, bm, b))
    ensures a == b
  {
    assert RowsOf(p, am, a) == RowsOf(p, bm, b);
    assert |RowsOf(p, am, a)| == |a| && |RowsOf(p, bm, b)| == |b|;
    forall i | 0 <= i < |a| ensures a[i] == b[i] {
      assert RowsOf(p, am, a)[i] == RowsOf(p, bm, b)[i];
      assert p.name(p.path(a[i].logical)) == Some(a[i].logical) && p.name(p.path(b[i].logical)) == Some(b[i].logical);
      assert p.coder.content(a[i].data) == p.coder.content(b[i].data);
    }
  }

  // ----- transport entries -----

  function ChunkEntry(p: Profile, privacy: Privacy, owner: Id, i: nat, data: Bytes): Entry {
    Entry(p.path(Chunk(owner, i)), data, p.kind(Chunk(owner, i)), privacy, OuterShell, None)
  }

  function ChunkEntries(p: Profile, privacy: Privacy, owner: Id, cs: seq<Bytes>): seq<Entry> {
    seq(|cs|, i requires 0 <= i < |cs| => ChunkEntry(p, privacy, owner, i, cs[i]))
  }

  function DescribeChunks(p: Profile, f: File, owner: Id, cs: seq<Bytes>): TransportManifest {
    TransportManifest(p.path(f.logical), owner, |f.data|,
      seq(|cs|, i requires 0 <= i < |cs| => ChunkRow(p.path(Chunk(owner, i)), p.coder.content(cs[i]), |cs[i]|)))
  }

  function CarrierEntry(p: Profile, privacy: Privacy, f: File, owner: Id, cs: seq<Bytes>): Entry {
    Entry(p.path(Carrier(owner)), p.write(DescribeChunks(p, f, owner, cs)), p.kind(Carrier(owner)), privacy, MidShell,
      None)
  }

  /** What one file becomes on its way. */
  function Carried(p: Profile, all: multiset<File>, f: File, size: nat): seq<Entry>
    requires size > 0
  {
    var privacy := p.privacy(all, f.logical);
    match f.logical
    case Object(d) => ChunkEntries(p, privacy, d, Chunks(f.data, size))
      + [CarrierEntry(p, privacy, f, d, Chunks(f.data, size))]
    case l => [Entry(p.path(l), f.data, p.kind(l), privacy, l.Recovery(), None)]
  }

  function Transport(p: Profile, all: multiset<File>, files: seq<File>, size: nat): seq<Entry>
    requires size > 0
  {
    if files == [] then []
      else Transport(p, all, files[..|files| - 1], size) + Carried(p, all, files[|files| - 1], size)
  }

  predicate ChunksLimited(files: seq<File>, size: nat)
    requires size > 0
  {
    forall i :: 0 <= i < |files| && files[i].logical.Object?
      ==> |Chunks(files[i].data, size)| <= MAX_LARGE_OBJECT_CHUNKS
  }

  lemma {:induction false} TransportHas(p: Profile, all: multiset<File>, files: seq<File>, size: nat, e: Entry)
    requires size > 0
    ensures e in Transport(p, all, files, size) <==> exists i ::
      0 <= i < |files| && e in Carried(p, all, files[i], size)
  {
    hide Carried;
    if files != [] {
      var n := |files| - 1;
      TransportHas(p, all, files[..n], size, e);
    }
  }

  /** The file a transport path speaks for. */
  ghost predicate SpeaksFor(p: Profile, b: Bytes, l: Logical) {
    match l
    case Object(d) => p.name(b) == Some(Carrier(d)) || exists i: nat :: p.name(b) == Some(Chunk(d, i))
    case _ => p.name(b) == Some(l)
  }

  lemma CarriedSpeaks(p: Profile, all: multiset<File>, f: File, size: nat)
    requires p.Sound() && size > 0 && !f.logical.Transport()
    ensures PathsDistinct(Carried(p, all, f, size))
    ensures forall e | e in Carried(p, all, f, size) :: SpeaksFor(p, e.path, f.logical)
  {
    hide Chunks;
    var es := Carried(p, all, f, size);
    if f.logical.Object? {
      var n := |es| - 1;
      forall i: nat | i < n ensures p.name(es[i].path) == Some(Chunk(f.logical.digest, i)) {
        assert es[i] == ChunkEntry(p, p.privacy(all, f.logical), f.logical.digest, i, Chunks(f.data, size)[i]);
      }
      assert p.name(es[n].path) == Some(Carrier(f.logical.digest));
    }
  }

  lemma SpeaksForOne(p: Profile, b: Bytes, l: Logical, k: Logical)
    requires SpeaksFor(p, b, l) && SpeaksFor(p, b, k) && !l.Transport() && !k.Transport()
    ensures l == k
  {
  }

  /** Distinct files never share a transport path. */
  lemma {:induction false} TransportDistinct(p: Profile, all: multiset<File>, files: seq<File>, size: nat)
    requires p.Sound() && size > 0 && DistinctFiles(files) && forall i :: 0 <= i < |files| ==>
      !files[i].logical.Transport()
    ensures PathsDistinct(Transport(p, all, files, size))
  {
    hide Carried, SpeaksFor;
    if files != [] {
      var n := |files| - 1;
      TransportDistinct(p, all, files[..n], size);
      var front, last := Transport(p, all, files[..n], size), Carried(p, all, files[n], size);
      CarriedSpeaks(p, all, files[n], size);
      forall a, b | a in front && b in last ensures a.path != b.path {
        TransportHas(p, all, files[..n], size, a);
        var i :| 0 <= i < n && a in Carried(p, all, files[..n][i], size);
        CarriedSpeaks(p, all, files[i], size);
        if a.path == b.path { SpeaksForOne(p, a.path, files[i].logical, files[n].logical); }
      }
      JoinDistinct(front, last);
    }
  }

  lemma JoinDistinct(a: seq<Entry>, b: seq<Entry>)
    requires PathsDistinct(a) && PathsDistinct(b) && forall x, y | x in a && y in b :: x.path != y.path
    ensures PathsDistinct(a + b)
  {
    forall i, j | 0 <= i < j < |a + b| ensures (a + b)[i].path != (a + b)[j].path {
      if i < |a| && |a| <= j { assert a[i] in a && b[j - |a|] in b; }
    }
  }
}
