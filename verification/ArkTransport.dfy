/** How the repository recovery package carries bytes (`storage/ark_repository_bundle.py`): raw
    objects are cut into chunks, and all transport entries are packed in order into capsules. */
module ArkTransport {
  import opened Common
  import opened RestoreCapsule

  const MAX_CAPSULE_ENTRIES := 1000
  const MAX_CAPSULE_PAYLOAD_BYTES := 64 * 1024 * 1024
  const MAX_LARGE_OBJECT_CHUNKS := 100_000

  datatype TransportError = TooManyChunks | EntryTooLarge

  // ----- chunks -----

  /** The only way to cut `content` into pieces of `size` bytes with a last piece that is shorter or
      full; an empty object is one empty piece. */
  function Chunks(content: Bytes, size: nat): (cs: seq<Bytes>)
    requires size > 0
    ensures cs != []
    decreases |content|
  {
    if |content| <= size then [content] else [content[..size]] + Chunks(content[size..], size)
  }

  /** The bytes written one after the other. */
  function Joined(cs: seq<Bytes>): Bytes {
    if cs == [] then [] else Joined(cs[..|cs| - 1]) + cs[|cs| - 1]
  }

  lemma {:induction false} JoinedCons(c: Bytes, cs: seq<Bytes>)
    ensures Joined([c] + cs) == c + Joined(cs)
  {
    var all := [c] + cs;
    if cs == [] {
      assert all == [c] && all[..0] == [];
    } else {
      assert all[..|all| - 1] == [c] + cs[..|cs| - 1] && all[|all| - 1] == cs[|cs| - 1];
      JoinedCons(c, cs[..|cs| - 1]);
      assert c + Joined(cs[..|cs| - 1]) + cs[|cs| - 1] == c + (Joined(cs[..|cs| - 1]) + cs[|cs| - 1]);
    }
  }

  /** Chunking loses nothing, whatever the chunk size. */
  lemma {:induction false} ChunksJoin(content: Bytes, size: nat)
    requires size > 0
    ensures Joined(Chunks(content, size)) == content
    decreases |content|
  {
    if |content| <= size {
      assert [content][..0] == [];
    } else {
      ChunksJoin(content[size..], size);
      JoinedCons(content[..size], Chunks(content[size..], size));
    }
  }

  /** One chunk per started `size` bytes, and at least one. */
  lemma {:induction false} ChunkCount(content: Bytes, size: nat)
    requires size > 0
    ensures
      var n := |Chunks(content, size)|;
      (n - 1) * size < |content| <= n * size || (content == [] && n == 1)
    decreases |content|
  {
    if |content| > size {
      ChunkCount(content[size..], size);
      var n := |Chunks(content[size..], size)|;
      assert (n + 1) * size == n * size + size && n * size == (n - 1) * size + size;
    }
  }

  /** The pieces of `content`, all full but for the last, which is empty only for an empty object. */
  ghost predicate CutInto(content: Bytes, size: nat, cs: seq<Bytes>) {
    && cs != [] && Joined(cs) == content
    && (forall i :: 0 <= i < |cs| - 1 ==> |cs[i]| == size)
    && |cs[|cs| - 1]| <= size && (content != [] ==> cs[|cs| - 1] != [])
  }

  lemma {:induction false} ChunksCut(content: Bytes, size: nat)
    requires size > 0
    ensures CutInto(content, size, Chunks(content, size))
    decreases |content|
  {
    hide Joined;
    ChunksJoin(content, size);
    if |content| > size {
      ChunksCut(content[size..], size);
      var cs, rest := Chunks(content, size), Chunks(content[size..], size);
      assert forall i :: 0 < i < |cs| ==> cs[i] == rest[i - 1];
    }
  }

  /** No object may take more than 100,000 pieces. */
  predicate Cuttable(content: Bytes, size: nat) {
    |content| <= 100_000 * size
  }

  lemma CuttableIff(content: Bytes, size: nat)
    requires size > 0
    ensures Cuttable(content, size) <==> |Chunks(content, size)| <= MAX_LARGE_OBJECT_CHUNKS
  {
    ChunkCount(content, size);
    var n := |Chunks(content, size)|;
    if n <= 100_000 { MoreFit(n, 100_000, size); } else { MoreFit(100_000, n - 1, size); }
  }

  lemma MoreFit(a: nat, b: nat, size: nat)
    requires a <= b
    ensures a * size <= b * size
  {
  }

  /** The reading loop of `_stream_object_entries`. */
  method StreamObject(content: Bytes, size: nat) returns (r: Result<seq<Bytes>, TransportError>)
    requires size > 0
    ensures r.Ok? <==> Cuttable(content, size)
    ensures r.Ok? ==> CutInto(content, size, r.value)
    ensures r.Ok? <==> |Chunks(content, size)| <= MAX_LARGE_OBJECT_CHUNKS
    ensures r.Ok? ==> r.value == Chunks(content, size)
  {
    hide Chunks, CutInto, Cuttable, Unread;
    CuttableIff(content, size);
    ChunksCut(content, size);
    NothingRead(content, size);
    var chunks: seq<Bytes> := [];
    var seen := 0;
    while true
      invariant 0 <= seen <= |content| && (chunks == [] ==> seen == 0) && |chunks| <= MAX_LARGE_OBJECT_CHUNKS
      invariant Chunks(content, size) == chunks + Unread(content, seen, size, chunks == [])
      decreases |content| - seen, if chunks == [] then 1 else 0
    {
      var chunk := content[seen..if seen + size <= |content| then seen + size else |content|];
      if chunk == [] && |chunks| > 0 {
        AllRead(content, size, chunks);
        break;
      }
      ReadOne(content, seen, size, chunks == []);
      ghost var left := Unread(content, seen + |chunk|, size, false);
      assert chunks + ([chunk] + left) == (chunks + [chunk]) + left;
      chunks := chunks + [chunk];
      seen := seen + |chunk|;
      if |chunks| > MAX_LARGE_OBJECT_CHUNKS {
        return Err(TooManyChunks);
      }
      if chunk == [] {
        AllRead(content, size, chunks);
        break;
      }
    }
    r := Ok(chunks);
  }

  lemma NothingRead(content: Bytes, size: nat)
    requires size > 0
    ensures Chunks(content, size) == [] + Unread(content, 0, size, true)
  {
    assert content[0..] == content;
  }

  lemma AllRead(content: Bytes, size: nat, chunks: seq<Bytes>)
    requires size > 0 && Chunks(content, size) == chunks + Unread(content, |content|, size, false)
    ensures chunks == Chunks(content, size)
  {
    assert chunks + [] == chunks;
  }

  /** The chunks still to come when `seen` bytes have been read. */
  ghost function Unread(content: Bytes, seen: nat, size: nat, first: bool): seq<Bytes>
    requires seen <= |content| && size > 0
  {
    if seen < |content| || first then Chunks(content[seen..], size) else []
  }

  lemma ReadOne(content: Bytes, seen: nat, size: nat, first: bool)
    requires seen <= |content| && size > 0 && (seen < |content| || first)
    ensures
      var end := if seen + size <= |content| then seen + size else |content|;
      Unread(content, seen, size, first) == [content[seen..end]] + Unread(content, end, size, false)
  {
    var rest := content[seen..];
    if |rest| > size {
      assert rest[..size] == content[seen..seen + size] && rest[size..] == content[seen + size..];
    } else {
      assert content[seen..|content|] == rest && [rest] == [rest] + [];
    }
  }

  // ----- groups -----

  predicate Fits(g: seq<Entry>) {
    |g| <= MAX_CAPSULE_ENTRIES && TotalSize(g) <= MAX_CAPSULE_PAYLOAD_BYTES
  }

  function Flat(gs: seq<seq<Entry>>): seq<Entry> {
    if gs == [] then [] else Flat(gs[..|gs| - 1]) + gs[|gs| - 1]
  }

  /** An order-preserving partition into groups that fit. */
  ghost predicate Packing(gs: seq<seq<Entry>>, entries: seq<Entry>) {
    Flat(gs) == entries && forall i :: 0 <= i < |gs| ==> gs[i] != [] && Fits(gs[i])
  }

  /** No group could have taken the first entry of the next one. */
  ghost predicate Tight(gs: seq<seq<Entry>>) {
    forall i: nat :: i + 1 < |gs| ==> NoRoom(gs, i)
  }

  ghost predicate NoRoom(gs: seq<seq<Entry>>, i: nat)
    requires i + 1 < |gs|
  {
    gs[i + 1] != [] && !Fits(gs[i] + [gs[i + 1][0]])
  }

  lemma {:induction false} FlatAppend(a: seq<seq<Entry>>, b: seq<seq<Entry>>)
    ensures Flat(a + b) == Flat(a) + Flat(b)
  {
    if b == [] {
      assert a + b == a;
    } else {
      assert (a + b)[..|a + b| - 1] == a + b[..|b| - 1];
      FlatAppend(a, b[..|b| - 1]);
    }
  }

  lemma TotalSizeSnoc(g: seq<Entry>, e: Entry)
    ensures TotalSize(g + [e]) == TotalSize(g) + |e.data|
  {
    assert (g + [e])[..|g|] == g;
  }

  /** A stretch of a fitting group fits. */
  lemma StretchFits(g: seq<Entry>, i: nat, j: nat)
    requires Fits(g) && i <= j <= |g|
    ensures Fits(g[i..j])
  {
    assert g == g[..i] + g[i..j] + g[j..];
    TotalSizeConcat(g[..i] + g[i..j], g[j..]);
    TotalSizeConcat(g[..i], g[i..j]);
  }

  /** Group `k` is the stretch of the entries between two boundaries. */
  lemma GroupStretch(gs: seq<seq<Entry>>, k: nat)
    requires k < |gs|
    ensures
      var i, j := |Flat(gs[..k])|, |Flat(gs[..k + 1])|;
      i <= j <= |Flat(gs)| && Flat(gs)[i..j] == gs[k] && j - i == |gs[k]|
  {
    assert gs[..k + 1][..k] == gs[..k];
    assert gs == gs[..k + 1] + gs[k + 1..];
    FlatAppend(gs[..k + 1], gs[k + 1..]);
  }

  /** A tight packing is never behind any other packing. */
  lemma {:induction false} GreedyStaysAhead(gs: seq<seq<Entry>>, hs: seq<seq<Entry>>, entries: seq<Entry>, k: nat)
    requires Packing(gs, entries) && Tight(gs) && Packing(hs, entries)
    requires k <= |gs| && k <= |hs|
    ensures |Flat(hs[..k])| <= |Flat(gs[..k])|
  {
    if k > 0 {
      GreedyStaysAhead(gs, hs, entries, k - 1);
      GroupStretch(gs, k - 1);
      GroupStretch(hs, k - 1);
      if k < |gs| {
        GroupStretch(gs, k);
        NextWouldFit(gs, hs, entries, k);
      } else {
        assert gs[..k] == gs;
      }
    }
  }

  lemma NextWouldFit(gs: seq<seq<Entry>>, hs: seq<seq<Entry>>, entries: seq<Entry>, k: nat)
    requires Packing(gs, entries) && Tight(gs) && Packing(hs, entries)
    requires 0 < k < |gs| && k <= |hs|
    requires |Flat(hs[..k - 1])| <= |Flat(gs[..k - 1])|
    ensures |Flat(hs[..k])| <= |Flat(gs[..k])|
  {
    hide Fits, Flat;
    GroupStretch(gs, k - 1);
    GroupStretch(hs, k - 1);
    GroupStretch(gs, k);
    var a, b, c, d := |Flat(hs[..k - 1])|, |Flat(gs[..k - 1])|, |Flat(gs[..k])|, |Flat(hs[..k])|;
    if c < d {
      assert NoRoom(gs, k - 1);
      assert entries[c] == entries[c..|Flat(gs[..k + 1])|][0] == gs[k][0] && entries[b..c] == gs[k - 1];
      assert entries[b..c + 1] == entries[b..c] + [entries[c]] == gs[k - 1] + [gs[k][0]] && entries[a..d] == hs[k - 1];
      assert entries[a..d][b - a..c + 1 - a] == entries[b..c + 1];
      StretchFits(hs[k - 1], b - a, c + 1 - a);
      assert false;
    }
  }

  /** No packing uses fewer groups. */
  lemma FewestGroups(gs: seq<seq<Entry>>, hs: seq<seq<Entry>>, entries: seq<Entry>)
    requires Packing(gs, entries) && Tight(gs) && Packing(hs, entries)
    ensures |gs| <= |hs|
  {
    if |hs| < |gs| {
      var k := |hs|;
      GreedyStaysAhead(gs, hs, entries, k);
      assert hs[..k] == hs;
      GroupStretch(gs, k);
      assert false;
    }
  }

  /** There is one tight packing. */
  lemma TightUnique(gs: seq<seq<Entry>>, hs: seq<seq<Entry>>, entries: seq<Entry>)
    requires Packing(gs, entries) && Tight(gs) && Packing(hs, entries) && Tight(hs)
    ensures gs == hs
  {
    FewestGroups(gs, hs, entries);
    FewestGroups(hs, gs, entries);
    forall k | 0 <= k < |gs| ensures gs[k] == hs[k] {
      GreedyStaysAhead(gs, hs, entries, k);
      GreedyStaysAhead(hs, gs, entries, k);
      GreedyStaysAhead(gs, hs, entries, k + 1);
      GreedyStaysAhead(hs, gs, entries, k + 1);
      GroupStretch(gs, k);
      GroupStretch(hs, k);
    }
  }

  predicate AllSmall(entries: seq<Entry>) {
    forall i :: 0 <= i < |entries| ==> |entries[i].data| <= MAX_CAPSULE_PAYLOAD_BYTES
  }

  /** The state of the grouping loop after the entries `done`. */
  ghost predicate Filling(groups: seq<seq<Entry>>, current: seq<Entry>, done: seq<Entry>) {
    && Flat(groups) + current == done && Fits(current)
    && (forall k :: 0 <= k < |groups| ==> groups[k] != [] && Fits(groups[k]))
    && (groups != [] ==> current != [])
    && (current != [] ==> Tight(groups + [current]))
  }

  lemma CloseKeeps(groups: seq<seq<Entry>>, current: seq<Entry>, done: seq<Entry>, e: Entry)
    requires Filling(groups, current, done) && current != [] && !Fits(current + [e])
    requires |e.data| <= MAX_CAPSULE_PAYLOAD_BYTES
    ensures Filling(groups + [current], [e], done + [e]) && Fits([e]) && TotalSize([e]) == |e.data|
  {
    var before, after := groups + [current], groups + [current] + [[e]];
    assert before[..|groups|] == groups;
    TotalSizeSnoc([], e);
    assert [] + [e] == [e];
    forall i: nat | i + 1 < |after| ensures NoRoom(after, i) {
      if i < |groups| { assert NoRoom(before, i) && after[i] == before[i] && after[i + 1] == before[i + 1]; }
    }
  }

  lemma ExtendKeeps(groups: seq<seq<Entry>>, current: seq<Entry>, done: seq<Entry>, e: Entry)
    requires Filling(groups, current, done) && Fits(current + [e])
    ensures Filling(groups, current + [e], done + [e])
  {
    hide Fits, Flat;
    var before, after := groups + [current], groups + [current + [e]];
    forall i: nat | i + 1 < |after| ensures NoRoom(after, i) {
      assert NoRoom(before, i) && after[i] == before[i] && after[i + 1][0] == before[i + 1][0];
    }
  }

  lemma FillingEnds(groups: seq<seq<Entry>>, current: seq<Entry>, done: seq<Entry>)
    requires Filling(groups, current, done)
    ensures
      var gs := if current == [] then groups else groups + [current];
      Packing(gs, done) && Tight(gs)
  {
    assert (groups + [current])[..|groups|] == groups;
  }

  /** `_iter_capsule_groups`: fails only on an entry that cannot fit alone, and otherwise packs into
      as few groups as any order-preserving packing could. */
  method GroupEntries(entries: seq<Entry>) returns (r: Result<seq<seq<Entry>>, TransportError>)
    ensures r.Ok? <==> AllSmall(entries)
    ensures r.Ok? ==> Packing(r.value, entries) && Tight(r.value)
    ensures r.Ok? ==> forall hs :: Packing(hs, entries) ==> |r.value| <= |hs|
  {
    hide Packing, Tight, Filling, Flat, TotalSize;
    var groups: seq<seq<Entry>> := [];
    var current: seq<Entry> := [];
    var currentBytes := 0;
    FillingStarts();
    for i := 0 to |entries|
      invariant currentBytes == TotalSize(current) && Fits(current)
      invariant Filling(groups, current, entries[..i])
      invariant forall k :: 0 <= k < i ==> |entries[k].data| <= MAX_CAPSULE_PAYLOAD_BYTES
    {
      var e := entries[i];
      if |e.data| > MAX_CAPSULE_PAYLOAD_BYTES {
        return Err(EntryTooLarge);
      }
      TotalSizeSnoc(current, e);
      assert entries[..i + 1] == entries[..i] + [e];
      if current != [] && (|current| >= MAX_CAPSULE_ENTRIES || currentBytes + |e.data| > MAX_CAPSULE_PAYLOAD_BYTES) {
        CloseKeeps(groups, current, entries[..i], e);
        groups := groups + [current];
        current, currentBytes := [], 0;
        assert [] + [e] == [e];
      } else {
        ExtendKeeps(groups, current, entries[..i], e);
      }
      current := current + [e];
      currentBytes := currentBytes + |e.data|;
    }
    assert entries[..|entries|] == entries;
    FillingEnds(groups, current, entries);
    if current != [] {
      groups := groups + [current];
    }
    r := Ok(groups);
    forall hs | Packing(hs, entries) ensures |groups| <= |hs| {
      FewestGroups(groups, hs, entries);
    }
  }

  lemma FillingStarts()
    ensures Filling([], [], []) && TotalSize([]) == 0
  {
  }
}
