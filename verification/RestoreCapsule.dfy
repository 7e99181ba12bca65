/** The restore capsule container (`storage/restore_capsule.py`): magic, 8-byte big-endian manifest
    length, canonical manifest, payload.  Canonical JSON is an abstract codec; bytes around it are
    concrete.  Logical paths are their UTF-8 bytes. */
module RestoreCapsule {
  import opened Common
  import opened Vault
  import DnaLattice
  import Sorting

  const MAX_MANIFEST_BYTES := 4 * 1024 * 1024
  const MAX_PAYLOAD_BYTES := 256 * 1024 * 1024
  const MAX_ENTRY_COUNT := 4096

  datatype Recovery = NearShell | MidShell | OuterShell | ResonanceNode | WiggleZone {
    function Rank(): nat {
      match this case NearShell => 0 case MidShell => 1 case OuterShell => 2 case ResonanceNode => 3
        case WiggleZone => 4
    }

    function PhiMilli(): int {
      match this case NearShell => 1000 case MidShell => 1618 case OuterShell => 2618 case ResonanceNode => 4236
        case WiggleZone => 6854
    }
  }

  datatype Entry = Entry(path: Bytes, data: Bytes, kind: string, privacy: Privacy, recovery: Recovery,
      source: Option<string>)

  /** An optional member of a manifest entry may also be there with the value null. */
  datatype SourceField = Absent | Null | Ref(text: string) {
    function Value(): Option<string> {
      if Ref? then Some(text) else None
    }
  }

  datatype ManifestEntry = ManifestEntry(
    path: Bytes, kind: string, privacy: Privacy, recovery: Recovery, phiMilli: int, size: int, sha: Id,
      source: SourceField)

  datatype ManifestBase = ManifestBase(restoreOrder: seq<Bytes>, entries: seq<ManifestEntry>, payloadSize: int,
      payloadSha: Id)

  datatype Manifest = Manifest(id: Id, base: ManifestBase)

  /** Canonical JSON, SHA-256 and the text rules for paths, kinds and source references. */
  datatype Coder = Coder(
    encode: Manifest -> Bytes, decode: Bytes -> Option<Manifest>, content: Bytes -> Id, identity: ManifestBase -> Id,
    textValid: (Bytes, string, Option<string>) -> bool) {
    ghost predicate Sound() {
      forall m :: decode(encode(m)) == Some(m) && |encode(m)| >= 2
    }
  }

  datatype Error =
    | InvalidEntry | NoEntries | TooManyEntries | PayloadTooLarge | DuplicatePath | ManifestTooLarge
    | WrongMagic | WrongManifestLength | Truncated | NotJson | WrongIdentity | NotOrdered | WrongPayload | WrongSchedule
    | NotCanonical | WrongProjection

  // ----- header -----

  const MAGIC: Bytes := [81, 83, 79, 76, 45, 82, 69, 83, 84, 79, 82, 69, 45, 68, 65, 84, 47, 49, 0]

  const HEADER := |MAGIC| + 8

  /** `struct.pack(">Q", n)`, least significant digit last. */
  function BigEndian(n: nat, width: nat): (b: Bytes)
    ensures |b| == width
  {
    if width == 0 then [] else BigEndian(n / 256, width - 1) + [n % 256]
  }

  function BigEndianValue(b: Bytes): nat {
    if b == [] then 0 else BigEndianValue(b[..|b| - 1]) * 256 + b[|b| - 1]
  }

  function Power256(width: nat): nat {
    if width == 0 then 1 else 256 * Power256(width - 1)
  }

  lemma {:induction false} BigEndianRoundTrip(n: nat, width: nat)
    requires n < Power256(width)
    ensures BigEndianValue(BigEndian(n, width)) == n
  {
    if width > 0 {
      var b := BigEndian(n, width);
      BigEndianRoundTrip(n / 256, width - 1);
      assert b[..|b| - 1] == BigEndian(n / 256, width - 1) && b[|b| - 1] == n % 256;
    }
  }

  lemma ManifestLengthFits(n: nat)
    requires n <= MAX_MANIFEST_BYTES
    ensures n < Power256(8)
  {
    assert Power256(4) == 256 * (256 * (256 * 256)) by {
      assert Power256(1) == 256 && Power256(2) == 256 * 256;
    }
    assert Power256(5) >= Power256(4) && Power256(6) >= Power256(5) && Power256(7) >= Power256(6)
      && Power256(8) >= Power256(7);
  }

  function Container(manifest: Bytes, payload: Bytes): Bytes {
    MAGIC + BigEndian(|manifest|, 8) + manifest + payload
  }

  // ----- schedule -----

  datatype Scheduled = Scheduled(path: Bytes, recovery: Recovery)

  function ScheduleKey(): Scheduled -> seq<int> {
    (s: Scheduled) => [s.recovery.Rank()] + s.path
  }

  function PathsOf(ss: seq<Scheduled>): seq<Bytes> {
    seq(|ss|, i requires 0 <= i < |ss| => ss[i].path)
  }

  /** `_restore_order`: by recovery rank, then by path. */
  function RestoreOrder(ss: seq<Scheduled>): seq<Bytes> {
    PathsOf(Sorting.SortBy(ss, ScheduleKey()))
  }

  /** The schedule is the one arrangement of the entries that is ordered by rank and then path. */
  lemma ScheduleIsTheSortedPermutation(ss: seq<Scheduled>, order: seq<Scheduled>)
    requires forall i, j :: 0 <= i < j < |ss| ==> ss[i].path != ss[j].path
    ensures multiset(order) == multiset(ss) && Sorting.SortedBy(order, ScheduleKey())
      ==> RestoreOrder(ss) == PathsOf(order)
    ensures
      var own := Sorting.SortBy(ss, ScheduleKey());
      multiset(own) == multiset(ss) && Sorting.SortedBy(own, ScheduleKey()) && RestoreOrder(ss) == PathsOf(own)
  {
    Sorting.SortSorts(ss, ScheduleKey());
    ScheduleKeysDistinct(ss);
    if multiset(order) == multiset(ss) && Sorting.SortedBy(order, ScheduleKey()) {
      Sorting.KeysDistinctByMultiset(ss, order, ScheduleKey());
      Sorting.SortedUnique(order, Sorting.SortBy(ss, ScheduleKey()), ScheduleKey());
    }
  }

  /** Near shells come back first, then middle and outer shells, resonance nodes and the wiggle zone; within
      one class the order is by path. */
  lemma RestoresOutward(ss: seq<Scheduled>, i: nat, j: nat)
    requires i < j < |Sorting.SortBy(ss, ScheduleKey())|
    ensures
      var a, b := Sorting.SortBy(ss, ScheduleKey())[i], Sorting.SortBy(ss, ScheduleKey())[j];
      && (b.recovery.NearShell? ==> a.recovery.NearShell?)
      && (b.recovery.MidShell? ==> a.recovery.NearShell? || a.recovery.MidShell?)
      && (b.recovery.OuterShell? ==> !a.recovery.ResonanceNode? && !a.recovery.WiggleZone?)
      && (a.recovery.WiggleZone? ==> b.recovery.WiggleZone?)
      && (a.recovery == b.recovery ==> Sorting.LexLeq(a.path, b.path))
  {
    Sorting.SortSorts(ss, ScheduleKey());
    var a, b := Sorting.SortBy(ss, ScheduleKey())[i], Sorting.SortBy(ss, ScheduleKey())[j];
    assert Sorting.LexLeq(ScheduleKey()(a), ScheduleKey()(b));
    assert ScheduleKey()(a)[0] == a.recovery.Rank() && ScheduleKey()(a)[1..] == a.path;
    assert ScheduleKey()(b)[0] == b.recovery.Rank() && ScheduleKey()(b)[1..] == b.path;
  }

  lemma ScheduleKeysDistinct(ss: seq<Scheduled>)
    requires forall i, j :: 0 <= i < j < |ss| ==> ss[i].path != ss[j].path
    ensures Sorting.KeysDistinct(ss, ScheduleKey())
  {
    forall i, j | 0 <= i < j < |ss| ensures ScheduleKey()(ss[i]) != ScheduleKey()(ss[j]) {
      assert ScheduleKey()(ss[i])[1..] == ss[i].path && ScheduleKey()(ss[j])[1..] == ss[j].path;
    }
  }

  // ----- packing -----

  function PathKey(): Entry -> seq<int> {
    (e: Entry) => e.path
  }

  function Sorted(es: seq<Entry>): seq<Entry> {
    Sorting.SortBy(es, PathKey())
  }

  function TotalSize(es: seq<Entry>): nat {
    if es == [] then 0 else TotalSize(es[..|es| - 1]) + |es[|es| - 1].data|
  }

  function Payload(es: seq<Entry>): (p: Bytes)
    ensures |p| == TotalSize(es)
  {
    if es == [] then [] else Payload(es[..|es| - 1]) + es[|es| - 1].data
  }

  function Described(c: Coder, e: Entry): ManifestEntry {
    ManifestEntry(e.path, e.kind, e.privacy, e.recovery, e.recovery.PhiMilli(), |e.data|, c.content(e.data),
      match e.source case None => Absent case Some(text) => Ref(text))
  }

  function DescribedAll(c: Coder, es: seq<Entry>): seq<ManifestEntry> {
    seq(|es|, i requires 0 <= i < |es| => Described(c, es[i]))
  }

  function Schedule(ms: seq<ManifestEntry>): seq<Scheduled> {
    seq(|ms|, i requires 0 <= i < |ms| => Scheduled(ms[i].path, ms[i].recovery))
  }

  function ManifestFor(c: Coder, es: seq<Entry>): Manifest {
    var ms := DescribedAll(c, es);
    var base := ManifestBase(RestoreOrder(Schedule(ms)), ms, |Payload(es)|, c.content(Payload(es)));
    Manifest(c.identity(base), base)
  }

  predicate PathsDistinct(es: seq<Entry>) {
    forall i, j :: 0 <= i < j < |es| ==> es[i].path != es[j].path
  }

  predicate EntriesValid(c: Coder, es: seq<Entry>) {
    forall i :: 0 <= i < |es| ==> c.textValid(es[i].path, es[i].kind, es[i].source)
  }

  function Packed(c: Coder, es: seq<Entry>): Result<Bytes, Error> {
    if !EntriesValid(c, es) then Err(InvalidEntry)
    else if es == [] then Err(NoEntries)
    else if |es| > MAX_ENTRY_COUNT then Err(TooManyEntries)
    else if TotalSize(Sorted(es)) > MAX_PAYLOAD_BYTES then Err(PayloadTooLarge)
    else if !PathsDistinct(Sorted(es)) then Err(DuplicatePath)
    else
      var manifest := c.encode(ManifestFor(c, Sorted(es)));
      if |manifest| > MAX_MANIFEST_BYTES then Err(ManifestTooLarge)
      else Ok(Container(manifest, Payload(Sorted(es))))
  }

  lemma {:induction false} TotalSizeConcat(a: seq<Entry>, b: seq<Entry>)
    ensures TotalSize(a + b) == TotalSize(a) + TotalSize(b)
  {
    if b == [] {
      assert a + b == a;
    } else {
      assert (a + b)[..|a + b| - 1] == a + b[..|b| - 1];
      TotalSizeConcat(a, b[..|b| - 1]);
    }
  }

  /** The summed size does not depend on the order of the entries. */
  lemma {:induction false} TotalSizeByMultiset(a: seq<Entry>, b: seq<Entry>)
    requires multiset(a) == multiset(b)
    ensures TotalSize(a) == TotalSize(b)
  {
    assert |multiset(a)| == |a| && |multiset(b)| == |b|;
    if a != [] {
      var n := |a| - 1;
      assert a[n] in multiset(b);
      var k :| 0 <= k < |b| && b[k] == a[n];
      var rest := WithoutOne(b, k);
      assert a == a[..n] + [a[n]];
      assert multiset(a[..n]) == multiset(a) - multiset{a[n]};
      TotalSizeByMultiset(a[..n], rest);
    }
  }

  lemma WithoutOne(b: seq<Entry>, k: nat) returns (rest: seq<Entry>)
    requires k < |b|
    ensures |rest| == |b| - 1 && multiset(rest) == multiset(b) - multiset{b[k]} && TotalSize(b) == TotalSize(rest)
      + |b[k].data|
  {
    rest := b[..k] + b[k + 1..];
    assert b == b[..k] + [b[k]] + b[k + 1..];
    TotalSizeConcat(b[..k], [b[k]]);
    TotalSizeConcat(b[..k] + [b[k]], b[k + 1..]);
    TotalSizeConcat(b[..k], b[k + 1..]);
    assert TotalSize([b[k]]) == |b[k].data| by { assert [b[k]][..0] == []; }
  }

  lemma SortedPermutes(es: seq<Entry>)
    ensures multiset(Sorted(es)) == multiset(es) && |Sorted(es)| == |es| && Sorting.SortedBy(Sorted(es), PathKey())
  {
    Sorting.SortSorts(es, PathKey());
  }

  lemma DistinctAreKeys(es: seq<Entry>)
    ensures PathsDistinct(es) <==> Sorting.KeysDistinct(es, PathKey())
  {
    assert forall e: Entry :: PathKey()(e) == e.path;
  }

  lemma PathsDistinctByMultiset(a: seq<Entry>, b: seq<Entry>)
    requires multiset(a) == multiset(b)
    ensures PathsDistinct(a) <==> PathsDistinct(b)
  {
    DistinctAreKeys(a);
    DistinctAreKeys(b);
    if PathsDistinct(a) { Sorting.KeysDistinctByMultiset(a, b, PathKey()); }
    if PathsDistinct(b) { Sorting.KeysDistinctByMultiset(b, a, PathKey()); }
  }

  lemma EntriesValidByMultiset(c: Coder, a: seq<Entry>, b: seq<Entry>)
    requires multiset(a) == multiset(b)
    ensures EntriesValid(c, a) <==> EntriesValid(c, b)
  {
    forall i | 0 <= i < |a| ensures a[i] in b { assert a[i] in multiset(b); }
    forall i | 0 <= i < |b| ensures b[i] in a { assert b[i] in multiset(a); }
  }

  /** `pack_capsule` does not see the order of its entries, not even in its errors. */
  lemma PackPermutation(c: Coder, a: seq<Entry>, b: seq<Entry>)
    requires multiset(a) == multiset(b)
    ensures Packed(c, a) == Packed(c, b)
  {
    hide PathsDistinct, ManifestFor, Container;
    assert |multiset(a)| == |a| && |multiset(b)| == |b|;
    EntriesValidByMultiset(c, a, b);
    SortedPermutes(a);
    SortedPermutes(b);
    TotalSizeByMultiset(Sorted(a), Sorted(b));
    PathsDistinctByMultiset(Sorted(a), Sorted(b));
    PathsDistinctByMultiset(a, Sorted(a));
    if PathsDistinct(a) {
      DistinctAreKeys(a);
      Sorting.SortPermutation(a, b, PathKey());
    }
  }

  /** The limits within which entries can be packed. */
  ghost predicate Packable(c: Coder, es: seq<Entry>) {
    && 1 <= |es| <= 4096 && EntriesValid(c, es) && PathsDistinct(es) && TotalSize(es) <= 268_435_456
    && |c.encode(ManifestFor(c, Sorted(es)))| <= 4_194_304
  }

  lemma PackedIff(c: Coder, es: seq<Entry>)
    ensures Packed(c, es).Ok? <==> Packable(c, es)
    ensures Packed(c, es).Ok? ==>
      Packed(c, es).value == Container(c.encode(ManifestFor(c, Sorted(es))), Payload(Sorted(es)))
  {
    hide EntriesValid, PathsDistinct, ManifestFor;
    SortedPermutes(es);
    TotalSizeByMultiset(es, Sorted(es));
    PathsDistinctByMultiset(es, Sorted(es));
  }

  /** `pack_capsule`: refuses nothing within the limits, and packs the entries in path order. */
  method PackCapsule(c: Coder, entries: seq<Entry>) returns (r: Result<Bytes, Error>)
    ensures r.Ok? <==> Packable(c, entries)
    ensures r.Ok? ==>
      r.value == Container(c.encode(ManifestFor(c, Sorted(entries))), Payload(Sorted(entries)))
    ensures r == Packed(c, entries)
  {
    hide PathsDistinct, EntriesValid, ManifestFor, Container, Packable;
    PackedIff(c, entries);
    if !EntriesValid(c, entries) {
      return Err(InvalidEntry);
    }
    if entries == [] {
      return Err(NoEntries);
    }
    if |entries| > MAX_ENTRY_COUNT {
      return Err(TooManyEntries);
    }
    SortedPermutes(entries);
    TotalSizeByMultiset(entries, Sorted(entries));
    if TotalSize(entries) > MAX_PAYLOAD_BYTES {
      return Err(PayloadTooLarge);
    }
    var normalized := Sorted(entries);
    if !PathsDistinct(normalized) {
      return Err(DuplicatePath);
    }
    var manifest, payload := Describe(c, normalized);
    var encoded := c.encode(manifest);
    if |encoded| > MAX_MANIFEST_BYTES {
      return Err(ManifestTooLarge);
    }
    r := Ok(Container(encoded, payload));
  }

  /** The loop that lists the entries and joins their bytes. */
  method Describe(c: Coder, normalized: seq<Entry>) returns (manifest: Manifest, payload: Bytes)
    ensures manifest == ManifestFor(c, normalized) && payload == Payload(normalized)
  {
    hide RestoreOrder, Described;
    var rows: seq<ManifestEntry> := [];
    payload := [];
    for i := 0 to |normalized|
      invariant rows == DescribedAll(c, normalized)[..i] && payload == Payload(normalized[..i])
    {
      var e := normalized[i];
      payload := payload + e.data;
      rows := rows + [Described(c, e)];
      assert normalized[..i + 1][..i] == normalized[..i];
    }
    assert normalized[..|normalized|] == normalized
      && DescribedAll(c, normalized)[..|normalized|] == DescribedAll(c, normalized);
    var base := ManifestBase(RestoreOrder(Schedule(rows)), rows, |payload|, c.content(payload));
    manifest := Manifest(c.identity(base), base);
  }

  // ----- parsing -----

  function ManifestPathKey(): ManifestEntry -> seq<int> {
    (m: ManifestEntry) => m.path
  }

  predicate RowValid(c: Coder, m: ManifestEntry) {
    c.textValid(m.path, m.kind, m.source.Value()) && m.phiMilli == m.recovery.PhiMilli() && m.size >= 0
  }

  /** Where section `i` starts. */
  function Offset(ms: seq<ManifestEntry>, i: nat): (o: nat)
    requires i <= |ms| && forall j :: 0 <= j < |ms| ==> ms[j].size >= 0
  {
    if i == 0 then 0 else Offset(ms, i - 1) + ms[i - 1].size
  }

  function EntryOf(m: ManifestEntry, data: Bytes): Entry {
    Entry(m.path, data, m.kind, m.privacy, m.recovery, m.source.Value())
  }

  ghost predicate SectionIs(c: Coder, ms: seq<ManifestEntry>, payload: Bytes, es: seq<Entry>, i: nat)
    requires i < |ms| && i < |es| && forall j :: 0 <= j < |ms| ==> ms[j].size >= 0
  {
    && Offset(ms, i + 1) <= |payload|
    && es[i] == EntryOf(ms[i], payload[Offset(ms, i)..Offset(ms, i + 1)]) && c.content(es[i].data) == ms[i].sha
  }

  /** The rows cut the payload into `es` without gap or remainder. */
  ghost predicate Slices(c: Coder, ms: seq<ManifestEntry>, payload: Bytes, es: seq<Entry>)
    requires forall j :: 0 <= j < |ms| ==> ms[j].size >= 0
  {
    |es| == |ms| && Offset(ms, |ms|) == |payload| && forall i: nat :: i < |ms| ==> SectionIs(c, ms, payload, es, i)
  }

  ghost predicate ManifestAccepted(c: Coder, m: Manifest, payload: Bytes) {
    && m.id == c.identity(m.base)
    && 0 < |m.base.entries| <= MAX_ENTRY_COUNT
    && (forall i :: 0 <= i < |m.base.entries| ==> RowValid(c, m.base.entries[i]))
    && Sorting.SortedBy(m.base.entries, ManifestPathKey()) && Sorting.KeysDistinct(m.base.entries, ManifestPathKey())
    && m.base.payloadSize == |payload| && m.base.payloadSha == c.content(payload)
    && m.base.restoreOrder == RestoreOrder(Schedule(m.base.entries))
  }

  /** What a byte string says as a capsule: it splits at the recorded manifest length, the manifest
      passes its checks and its rows cut the payload into `es`. */
  ghost predicate ParsesTo(c: Coder, raw: Bytes, m: Manifest, es: seq<Entry>) {
    exists text: Bytes, payload: Bytes :: SplitsInto(raw, text, payload) && ContentIs(c, text, payload, m, es)
  }

  ghost predicate SplitsInto(raw: Bytes, text: Bytes, payload: Bytes) {
    raw == Container(text, payload) && 2 <= |text| <= MAX_MANIFEST_BYTES && |payload| <= MAX_PAYLOAD_BYTES
  }

  ghost predicate ContentIs(c: Coder, text: Bytes, payload: Bytes, m: Manifest, es: seq<Entry>) {
    c.decode(text) == Some(m) && ManifestAccepted(c, m, payload) && Slices(c, m.base.entries, payload, es)
  }

  lemma ContainerParts(text: Bytes, payload: Bytes)
    requires |text| <= MAX_MANIFEST_BYTES
    ensures
      var raw := Container(text, payload);
      && |raw| == HEADER + |text| + |payload| && raw[..|MAGIC|] == MAGIC
      && BigEndianValue(raw[|MAGIC|..HEADER]) == |text|
      && raw[HEADER..HEADER + |text|] == text && raw[HEADER + |text|..] == payload
  {
    var raw := Container(text, payload);
    assert raw[|MAGIC|..HEADER] == BigEndian(|text|, 8);
    ManifestLengthFits(|text|);
    BigEndianRoundTrip(|text|, 8);
  }

  /** A byte string splits in at most one way. */
  lemma SplitUnique(raw: Bytes, t1: Bytes, p1: Bytes, t2: Bytes, p2: Bytes)
    requires SplitsInto(raw, t1, p1) && SplitsInto(raw, t2, p2)
    ensures t1 == t2 && p1 == p2
  {
    hide Container, BigEndianValue;
    ContainerParts(t1, p1);
    ContainerParts(t2, p2);
  }

  lemma {:induction false} BigEndianOfValue(b: Bytes)
    ensures BigEndian(BigEndianValue(b), |b|) == b
  {
    if b != [] {
      BigEndianOfValue(b[..|b| - 1]);
      var high, low := BigEndianValue(b[..|b| - 1]), b[|b| - 1];
      assert (high * 256 + low) / 256 == high && (high * 256 + low) % 256 == low;
    }
  }

  /** The header checks recover the only split there is, or there is none. */
  method SplitCapsule(raw: Bytes) returns (r: Result<(Bytes, Bytes), Error>)
    ensures forall text, payload :: r == Ok((text, payload)) <==> SplitsInto(raw, text, payload)
  {
    hide Container, BigEndianValue, BigEndian, SplitsInto;
    forall text, payload | SplitsInto(raw, text, payload) ensures SplitAt(raw, text, payload) {
      SplitShows(raw, text, payload);
    }
    if |raw| < HEADER || raw[..|MAGIC|] != MAGIC {
      return Err(WrongMagic);
    }
    var length := BigEndianValue(raw[|MAGIC|..HEADER]);
    if length < 2 || length > MAX_MANIFEST_BYTES {
      return Err(WrongManifestLength);
    }
    var end := HEADER + length;
    if end > |raw| {
      return Err(Truncated);
    }
    if |raw| - end > MAX_PAYLOAD_BYTES {
      return Err(PayloadTooLarge);
    }
    Rejoined(raw, length);
    r := Ok((raw[HEADER..end], raw[end..]));
  }

  /** What a split looks like from the header. */
  ghost predicate SplitAt(raw: Bytes, text: Bytes, payload: Bytes) {
    && |raw| == HEADER + |text| + |payload| && raw[..|MAGIC|] == MAGIC && BigEndianValue(raw[|MAGIC|..HEADER]) == |text|
    && 2 <= |text| <= MAX_MANIFEST_BYTES && |payload| <= MAX_PAYLOAD_BYTES
    && raw[HEADER..HEADER + |text|] == text && raw[HEADER + |text|..] == payload
  }

  lemma SplitShows(raw: Bytes, text: Bytes, payload: Bytes)
    requires SplitsInto(raw, text, payload)
    ensures SplitAt(raw, text, payload)
  {
    hide Container, BigEndianValue, BigEndian;
    ContainerParts(text, payload);
  }

  lemma Rejoined(raw: Bytes, length: nat)
    requires |raw| >= HEADER + length && raw[..|MAGIC|] == MAGIC && BigEndianValue(raw[|MAGIC|..HEADER]) == length
    requires 2 <= length <= MAX_MANIFEST_BYTES && |raw| - HEADER - length <= MAX_PAYLOAD_BYTES
    ensures SplitsInto(raw, raw[HEADER..HEADER + length], raw[HEADER + length..])
  {
    hide BigEndianValue, BigEndian;
    BigEndianOfValue(raw[|MAGIC|..HEADER]);
    assert raw == raw[..|MAGIC|] + raw[|MAGIC|..HEADER] + raw[HEADER..HEADER + length] + raw[HEADER + length..];
  }

  /** The extraction loop. */
  method Extract(c: Coder, ms: seq<ManifestEntry>, payload: Bytes) returns (r: Result<seq<Entry>, Error>)
    requires forall j :: 0 <= j < |ms| ==> ms[j].size >= 0
    ensures forall es :: r == Ok(es) <==> Slices(c, ms, payload, es)
  {
    hide EntryOf, Offset;
    var extracted: seq<Entry> := [];
    var offset := 0;
    OffsetZero(ms);
    for i := 0 to |ms|
      invariant |extracted| == i && offset == Offset(ms, i) <= |payload|
      invariant forall j: nat :: j < i ==> SectionIs(c, ms, payload, extracted, j)
    {
      var end := offset + ms[i].size;
      OffsetStep(ms, i);
      if end > |payload| {
        OffsetGrows(ms, i + 1, |ms|);
        return Err(Truncated);
      }
      var section := payload[offset..end];
      if c.content(section) != ms[i].sha {
        forall es | Slices(c, ms, payload, es) ensures false {
          assert SectionIs(c, ms, payload, es, i);
          DataOf(ms[i], section);
        }
        return Err(WrongPayload);
      }
      DataOf(ms[i], section);
      ghost var before := extracted;
      extracted := extracted + [EntryOf(ms[i], section)];
      offset := end;
      forall j: nat | j < i + 1 ensures SectionIs(c, ms, payload, extracted, j) {
        if j < i { assert SectionIs(c, ms, payload, before, j) && extracted[j] == before[j]; }
      }
    }
    if offset != |payload| {
      return Err(WrongPayload);
    }
    forall es | Slices(c, ms, payload, es) ensures es == extracted {
      forall i: nat | i < |ms| ensures es[i] == extracted[i] {
        assert SectionIs(c, ms, payload, es, i) && SectionIs(c, ms, payload, extracted, i);
      }
    }
    r := Ok(extracted);
  }

  lemma OffsetZero(ms: seq<ManifestEntry>)
    requires forall j :: 0 <= j < |ms| ==> ms[j].size >= 0
    ensures Offset(ms, 0) == 0
  {
  }

  lemma OffsetStep(ms: seq<ManifestEntry>, i: nat)
    requires i < |ms| && forall j :: 0 <= j < |ms| ==> ms[j].size >= 0
    ensures Offset(ms, i + 1) == Offset(ms, i) + ms[i].size
  {
  }

  lemma DataOf(m: ManifestEntry, data: Bytes)
    ensures EntryOf(m, data).data == data
  {
  }

  lemma {:induction false} OffsetGrows(ms: seq<ManifestEntry>, i: nat, j: nat)
    requires i <= j <= |ms| && forall j :: 0 <= j < |ms| ==> ms[j].size >= 0
    ensures Offset(ms, i) <= Offset(ms, j)
  {
    if i < j { OffsetGrows(ms, i, j - 1); }
  }

  /** `parse_capsule`. */
  method ParseCapsule(c: Coder, raw: Bytes) returns (r: Result<(Manifest, seq<Entry>), Error>)
    ensures forall m, es :: r == Ok((m, es)) <==> ParsesTo(c, raw, m, es)
  {
    hide SplitsInto, ContentIs;
    var split := SplitCapsule(raw);
    if split.Err? {
      assert forall text, payload :: !SplitsInto(raw, text, payload);
      return Err(split.error);
    }
    var (text, payload) := split.value;
    assert SplitsInto(raw, text, payload);
    assert forall t, p :: SplitsInto(raw, t, p) ==> Ok((t, p)) == split;
    r := ParseContent(c, text, payload);
    assert forall m, es :: ParsesTo(c, raw, m, es) <==> ContentIs(c, text, payload, m, es);
  }

  method ParseContent(c: Coder, text: Bytes, payload: Bytes) returns (r: Result<(Manifest, seq<Entry>), Error>)
    ensures forall m, es :: r == Ok((m, es)) <==> ContentIs(c, text, payload, m, es)
  {
    hide Slices, RowValid, RestoreOrder;
    var decoded := c.decode(text);
    if decoded == None {
      return Err(NotJson);
    }
    var manifest := decoded.value;
    var base := manifest.base;
    if manifest.id != c.identity(base) {
      return Err(WrongIdentity);
    }
    if base.entries == [] {
      return Err(NoEntries);
    }
    if |base.entries| > MAX_ENTRY_COUNT {
      return Err(TooManyEntries);
    }
    if exists i :: 0 <= i < |base.entries| && !RowValid(c, base.entries[i]) {
      return Err(InvalidEntry);
    }
    SizesNonNegative(c, base.entries);
    var ordered := OrderedPaths(base.entries);
    if !ordered {
      return Err(NotOrdered);
    }
    if base.payloadSize != |payload| || base.payloadSha != c.content(payload) {
      return Err(WrongPayload);
    }
    var extracted := Extract(c, base.entries, payload);
    if extracted.Err? {
      return Err(extracted.error);
    }
    if base.restoreOrder != RestoreOrder(Schedule(base.entries)) {
      return Err(WrongSchedule);
    }
    r := Ok((manifest, extracted.value));
  }

  lemma SizesNonNegative(c: Coder, ms: seq<ManifestEntry>)
    requires forall i :: 0 <= i < |ms| ==> RowValid(c, ms[i])
    ensures forall i :: 0 <= i < |ms| ==> ms[i].size >= 0
  {
  }

  /** Sorting the paths changes nothing, and no two are equal. */
  method OrderedPaths(ms: seq<ManifestEntry>) returns (ok: bool)
    ensures ok <==> Sorting.SortedBy(ms, ManifestPathKey()) && Sorting.KeysDistinct(ms, ManifestPathKey())
  {
    if exists i, j :: 0 <= i < j < |ms| && ms[i].path == ms[j].path {
      return false;
    }
    Sorting.SortSorts(ms, ManifestPathKey());
    if Sorting.SortedBy(ms, ManifestPathKey()) { Sorting.SortIdempotent(ms, ManifestPathKey()); }
    ok := Sorting.SortBy(ms, ManifestPathKey()) == ms;
  }

  // ----- packing and parsing undo each other -----

  lemma {:induction false} PayloadOffsets(c: Coder, es: seq<Entry>, i: nat)
    requires i <= |es|
    ensures Offset(DescribedAll(c, es), i) == |Payload(es[..i])|
    ensures IsPrefix(Payload(es[..i]), Payload(es))
    decreases |es| - i
  {
    OffsetOfPayload(c, es, i);
    if i == |es| {
      assert es[..i] == es;
    } else {
      PayloadOffsets(c, es, i + 1);
      assert es[..i + 1][..i] == es[..i];
    }
  }

  lemma {:induction false} OffsetOfPayload(c: Coder, es: seq<Entry>, i: nat)
    requires i <= |es|
    ensures Offset(DescribedAll(c, es), i) == |Payload(es[..i])|
  {
    if i > 0 {
      OffsetOfPayload(c, es, i - 1);
      assert es[..i][..i - 1] == es[..i - 1];
    }
  }

  /** The rows written for `es` cut their payload into `es` again. */
  lemma PackedSlices(c: Coder, es: seq<Entry>)
    ensures Slices(c, DescribedAll(c, es), Payload(es), es)
  {
    hide Offset;
    var ms := DescribedAll(c, es);
    PayloadOffsets(c, es, |es|);
    assert es[..|es|] == es;
    forall i: nat | i < |es| ensures SectionIs(c, ms, Payload(es), es, i) {
      PayloadOffsets(c, es, i);
      PayloadOffsets(c, es, i + 1);
      assert es[..i + 1][..i] == es[..i];
      assert Payload(es[..i + 1]) == Payload(es[..i]) + es[i].data;
      assert Payload(es)[|Payload(es[..i])|..|Payload(es[..i + 1])|] == es[i].data;
    }
  }

  lemma {:induction false} PackedManifest(c: Coder, es: seq<Entry>)
    requires EntriesValid(c, es) && 0 < |es| <= MAX_ENTRY_COUNT && PathsDistinct(es) && Sorting.SortedBy(es, PathKey())
    ensures ManifestAccepted(c, ManifestFor(c, es), Payload(es))
  {
    hide RestoreOrder;
    DistinctAreKeys(es);
  }

  lemma {:induction false} PackedContent(c: Coder, es: seq<Entry>)
    requires c.Sound()
    requires EntriesValid(c, es) && 0 < |es| <= MAX_ENTRY_COUNT && PathsDistinct(es) && Sorting.SortedBy(es, PathKey())
    ensures ContentIs(c, c.encode(ManifestFor(c, es)), Payload(es), ManifestFor(c, es), es)
  {
    hide RestoreOrder, ManifestAccepted, Slices;
    PackedManifest(c, es);
    PackedSlices(c, es);
  }

  lemma ContentUnique(c: Coder, text: Bytes, payload: Bytes, m1: Manifest, es1: seq<Entry>, m2: Manifest,
      es2: seq<Entry>)
    requires ContentIs(c, text, payload, m1, es1) && ContentIs(c, text, payload, m2, es2)
    ensures m1 == m2 && es1 == es2
  {
    hide EntryOf, Offset, RestoreOrder;
    var ms := m1.base.entries;
    forall i: nat | i < |ms| ensures es1[i] == es2[i] {
      assert SectionIs(c, ms, payload, es1, i) && SectionIs(c, ms, payload, es2, i);
    }
  }

  /** A byte string says at most one thing. */
  lemma ParseUnique(c: Coder, raw: Bytes, m1: Manifest, es1: seq<Entry>, m2: Manifest, es2: seq<Entry>)
    requires ParsesTo(c, raw, m1, es1) && ParsesTo(c, raw, m2, es2)
    ensures m1 == m2 && es1 == es2
  {
    hide SplitsInto, ContentIs;
    var t1: Bytes, p1: Bytes :| SplitsInto(raw, t1, p1) && ContentIs(c, t1, p1, m1, es1);
    var t2: Bytes, p2: Bytes :| SplitsInto(raw, t2, p2) && ContentIs(c, t2, p2, m2, es2);
    SplitUnique(raw, t1, p1, t2, p2);
    ContentUnique(c, t1, p1, m1, es1, m2, es2);
  }

  /** `parse_capsule(pack_capsule(es))` is the entries of `es` sorted by path, with their bytes. */
  lemma PackThenParse(c: Coder, es: seq<Entry>, raw: Bytes)
    requires c.Sound() && Packed(c, es) == Ok(raw)
    ensures forall m, other :: ParsesTo(c, raw, m, other) <==> m == ManifestFor(c, Sorted(es)) && other == Sorted(es)
  {
    hide ManifestFor, PathsDistinct, EntriesValid, Container, ContentIs;
    var sorted := Sorted(es);
    SortedPermutes(es);
    EntriesValidByMultiset(c, es, sorted);
    PackedContent(c, sorted);
    var text := c.encode(ManifestFor(c, sorted));
    assert SplitsInto(raw, text, Payload(sorted));
    assert ParsesTo(c, raw, ManifestFor(c, sorted), sorted);
    forall m, other | ParsesTo(c, raw, m, other) ensures m == ManifestFor(c, sorted) && other == sorted {
      ParseUnique(c, raw, m, other, ManifestFor(c, sorted), sorted);
    }
  }

  lemma SortedAgain(c: Coder, es: seq<Entry>)
    ensures Packed(c, Sorted(es)) == Packed(c, es)
  {
    SortedPermutes(es);
    PackPermutation(c, Sorted(es), es);
  }

  /** Capsules with equal bytes hold the same entries. */
  lemma PackInjective(c: Coder, a: seq<Entry>, b: seq<Entry>)
    requires c.Sound() && Packed(c, a).Ok? && Packed(c, a) == Packed(c, b)
    ensures multiset(a) == multiset(b)
  {
    hide Packed, ParsesTo;
    var raw := Packed(c, a).value;
    PackThenParse(c, a, raw);
    PackThenParse(c, b, raw);
    assert ParsesTo(c, raw, ManifestFor(c, Sorted(a)), Sorted(a));
    SortedPermutes(a);
    SortedPermutes(b);
  }

  /** The image of `pack_capsule`. */
  ghost predicate Canonical(c: Coder, raw: Bytes) {
    exists es :: Packed(c, es) == Ok(raw)
  }

  lemma CanonicalIsFixedPoint(c: Coder, raw: Bytes, m: Manifest, es: seq<Entry>)
    requires c.Sound() && ParsesTo(c, raw, m, es)
    ensures Canonical(c, raw) <==> Packed(c, es) == Ok(raw)
  {
    hide Packed, ParsesTo;
    if Canonical(c, raw) {
      var made :| Packed(c, made) == Ok(raw);
      PackThenParse(c, made, raw);
      SortedAgain(c, made);
    }
  }

  /** `verify_capsule` accepts exactly the byte strings `pack_capsule` can produce. */
  method VerifyCapsule(c: Coder, raw: Bytes) returns (r: Result<(Manifest, seq<Entry>), Error>)
    requires c.Sound()
    ensures r.Ok? <==> Canonical(c, raw)
    ensures r.Ok? ==> ParsesTo(c, raw, r.value.0, r.value.1)
  {
    hide Packed, ParsesTo;
    var parsed := ParseCapsule(c, raw);
    if parsed.Err? {
      NotCanonicalUnlessParsed(c, raw);
      return Err(parsed.error);
    }
    var (manifest, extracted) := parsed.value;
    assert ParsesTo(c, raw, manifest, extracted);
    CanonicalIsFixedPoint(c, raw, manifest, extracted);
    var rebuilt := PackCapsule(c, extracted);
    if rebuilt != Ok(raw) {
      return Err(NotCanonical);
    }
    r := Ok((manifest, extracted));
  }

  lemma NotCanonicalUnlessParsed(c: Coder, raw: Bytes)
    requires c.Sound()
    ensures Canonical(c, raw) ==> exists m, es :: ParsesTo(c, raw, m, es)
  {
    hide Packed, ParsesTo;
    if es :| Packed(c, es) == Ok(raw) {
      PackThenParse(c, es, raw);
      assert ParsesTo(c, raw, ManifestFor(c, Sorted(es)), Sorted(es));
    }
  }

  // ----- through the four-letter codec -----

  datatype CapsuleProjection = CapsuleProjection(projection: DnaLattice.Projection, capsuleSha: Id)

  /** Which bytes a capsule projection stands for. */
  ghost predicate ProjectsCapsule(c: Coder, h: DnaLattice.Hashing, p: CapsuleProjection, raw: Bytes) {
    DnaLattice.ProjectionOf(h, p.projection, raw) && p.capsuleSha == h.content(raw) && Canonical(c, raw)
  }

  function EncodedCapsule(h: DnaLattice.Hashing, raw: Bytes): CapsuleProjection {
    CapsuleProjection(DnaLattice.Encoded(h, raw, DnaLattice.PhiGated), h.content(raw))
  }

  /** `encode_capsule_dna`. */
  method EncodeCapsuleDna(c: Coder, h: DnaLattice.Hashing, raw: Bytes) returns (r: Result<CapsuleProjection, Error>)
    requires c.Sound()
    ensures r.Ok? <==> Canonical(c, raw)
    ensures r.Ok? ==> r.value == EncodedCapsule(h, raw)
  {
    hide Canonical, ParsesTo;
    var verified := VerifyCapsule(c, raw);
    if verified.Err? {
      return Err(verified.error);
    }
    var projection := DnaLattice.EncodeProjection(h, raw, DnaLattice.PhiGated);
    if projection.Err? || projection.value.basis.contentSha != h.content(raw) {
      return Err(WrongProjection);
    }
    r := Ok(CapsuleProjection(projection.value, h.content(raw)));
  }

  /** `decode_capsule_dna`: answers `raw` exactly for the projections of the canonical capsule `raw`. */
  method DecodeCapsuleDna(c: Coder, h: DnaLattice.Hashing, p: CapsuleProjection) returns (r: Result<Bytes, Error>)
    requires c.Sound()
    ensures forall raw :: r == Ok(raw) <==> ProjectsCapsule(c, h, p, raw)
  {
    hide Canonical, ParsesTo, DnaLattice.ProjectionOf;
    var decoded := DnaLattice.DecodeProjection(h, p.projection);
    if decoded.Err? {
      return Err(WrongProjection);
    }
    var capsule := decoded.value;
    if p.capsuleSha != h.content(capsule) {
      return Err(WrongProjection);
    }
    var verified := VerifyCapsule(c, capsule);
    if verified.Err? {
      return Err(verified.error);
    }
    r := Ok(capsule);
  }

  /** `decode_capsule_dna(encode_capsule_dna(raw))` is `raw`, for every verified capsule. */
  lemma CapsuleDnaRoundTrip(c: Coder, h: DnaLattice.Hashing, raw: Bytes)
    requires Canonical(c, raw)
    ensures forall other :: ProjectsCapsule(c, h, EncodedCapsule(h, raw), other) <==> other == raw
  {
    hide Canonical, DnaLattice.ProjectionOf, DnaLattice.Encoded;
    DnaLattice.EncodedIsProjection(h, raw, DnaLattice.PhiGated);
  }
}
