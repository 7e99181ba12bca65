/** The four-letter codec and its projection over the 27 lattice cells (`storage/dna_lattice.py`).
    Cell `L[x,y,z]` is the number 9x + 3y + z, its place in lexicographic order. */
module DnaLattice {
  import opened Common

  const CELLS := 27
  const PHI_STRIDE := 17

  // ----- bases -----

  function BaseOf(v: int): char {
    if v == 0 then 'A' else if v == 1 then 'C' else if v == 2 then 'G' else 'T'
  }

  function ValueOf(c: char): int {
    if c == 'A' then 0 else if c == 'C' then 1 else if c == 'G' then 2 else 3
  }

  predicate IsBase(c: char) {
    c == 'A' || c == 'C' || c == 'G' || c == 'T'
  }

  predicate ValidBases(s: string) {
    forall i :: 0 <= i < |s| ==> IsBase(s[i])
  }

  /** The four bases of one byte, high bits first; shifting right by two is dividing by four. */
  function ByteBases(b: Byte): (s: string)
    ensures |s| == 4
  {
    [BaseOf(b / 4 / 4 / 4), BaseOf(b / 4 / 4 % 4), BaseOf(b / 4 % 4), BaseOf(b % 4)]
  }

  function BasesByte(s: string): (b: Byte)
    requires |s| == 4
  {
    ((ValueOf(s[0]) * 4 + ValueOf(s[1])) * 4 + ValueOf(s[2])) * 4 + ValueOf(s[3])
  }

  /** The value the decoding loop has built after reading `s`. */
  function Horner(s: string): nat {
    if s == "" then 0 else Horner(s[..|s| - 1]) * 4 + ValueOf(s[|s| - 1])
  }

  lemma HornerOfByte(s: string)
    requires |s| == 4
    ensures Horner(s) == BasesByte(s)
  {
    assert s[..3][..2] == s[..2] && s[..2][..1] == s[..1] && s[..1][..0] == "";
    assert Horner(s[..1]) == ValueOf(s[0]);
    assert Horner(s[..2]) == ValueOf(s[0]) * 4 + ValueOf(s[1]);
    assert Horner(s[..3]) == (ValueOf(s[0]) * 4 + ValueOf(s[1])) * 4 + ValueOf(s[2]);
  }

  /** Four bases per byte, in order. */
  function EncodedBases(data: Bytes): (s: string)
    ensures |s| == 4 * |data|
  {
    if data == [] then "" else EncodedBases(data[..|data| - 1]) + ByteBases(data[|data| - 1])
  }

  function DecodedBytes(s: string): (data: Bytes)
    requires |s| % 4 == 0
    ensures 4 * |data| == |s|
  {
    if s == "" then [] else DecodedBytes(s[..|s| - 4]) + [BasesByte(s[|s| - 4..])]
  }

  lemma BaseValue(v: int)
    requires 0 <= v < 4
    ensures ValueOf(BaseOf(v)) == v && IsBase(BaseOf(v))
  {
  }

  lemma ByteRoundTrip(b: Byte)
    ensures BasesByte(ByteBases(b)) == b && ValidBases(ByteBases(b))
  {
    var q1 := b / 4;
    var q2 := q1 / 4;
    var q3 := q2 / 4;
    BaseValue(q3);
    BaseValue(q2 % 4);
    BaseValue(q1 % 4);
    BaseValue(b % 4);
  }

  lemma QuarterOf(n: int, d: int)
    requires 0 <= d < 4
    ensures (n * 4 + d) / 4 == n && (n * 4 + d) % 4 == d
  {
  }

  lemma ValueBase(c: char)
    requires IsBase(c)
    ensures BaseOf(ValueOf(c)) == c && 0 <= ValueOf(c) < 4
  {
  }

  lemma BasesRoundTrip(s: string)
    requires |s| == 4 && ValidBases(s)
    ensures ByteBases(BasesByte(s)) == s
  {
    var a, b, c, d := ValueOf(s[0]), ValueOf(s[1]), ValueOf(s[2]), ValueOf(s[3]);
    ValueBase(s[0]);
    ValueBase(s[1]);
    ValueBase(s[2]);
    ValueBase(s[3]);
    QuarterOf((a * 4 + b) * 4 + c, d);
    QuarterOf(a * 4 + b, c);
    QuarterOf(a, b);
  }

  lemma DecodeAppend(s: string, q: string)
    requires |s| % 4 == 0 && |q| == 4
    ensures |s + q| % 4 == 0 && DecodedBytes(s + q) == DecodedBytes(s) + [BasesByte(q)]
  {
    hide BasesByte;
    assert (s + q)[..|s|] == s && (s + q)[|s|..] == q;
  }

  lemma EncodeAppend(data: Bytes, b: Byte)
    ensures EncodedBases(data + [b]) == EncodedBases(data) + ByteBases(b)
  {
    hide ByteBases;
    assert (data + [b])[..|data|] == data;
  }

  lemma {:induction false} DecodeEncode(data: Bytes)
    ensures DecodedBytes(EncodedBases(data)) == data && ValidBases(EncodedBases(data))
  {
    hide BasesByte, ByteBases, DecodedBytes;
    if data == [] {
      EmptyDecodes();
    } else {
      var n := |data| - 1;
      DecodeEncode(data[..n]);
      ByteRoundTrip(data[n]);
      DecodeAppend(EncodedBases(data[..n]), ByteBases(data[n]));
    }
  }

  lemma EmptyDecodes()
    ensures DecodedBytes("") == []
  {
  }

  lemma {:induction false} EncodeDecode(s: string)
    requires |s| % 4 == 0 && ValidBases(s)
    ensures EncodedBases(DecodedBytes(s)) == s
  {
    hide BasesByte, ByteBases;
    if s != "" {
      var n := |s| - 4;
      EncodeDecode(s[..n]);
      BasesRoundTrip(s[n..]);
      var front, last := DecodedBytes(s[..n]), BasesByte(s[n..]);
      assert DecodedBytes(s) == front + [last];
      EncodeAppend(front, last);
      assert s == s[..n] + s[n..];
    }
  }

  /** Byte `i` is the four letters from `4 * i` on, two bits each, high bits first. */
  ghost predicate SpellsByte(s: string, data: Bytes, i: nat)
    requires i < |data| && |s| == 4 * |data|
  {
    && s[4 * i] == "ACGT"[data[i] / 64] && s[4 * i + 1] == "ACGT"[data[i] / 16 % 4]
    && s[4 * i + 2] == "ACGT"[data[i] / 4 % 4] && s[4 * i + 3] == "ACGT"[data[i] % 4]
  }

  lemma LettersOfByte(b: Byte)
    ensures ByteBases(b) == ["ACGT"[b / 64], "ACGT"[b / 16 % 4], "ACGT"[b / 4 % 4], "ACGT"[b % 4]]
  {
    assert b / 4 / 4 == b / 16 && b / 16 / 4 == b / 64;
    assert forall v :: 0 <= v < 4 ==> BaseOf(v) == "ACGT"[v];
  }

  lemma {:induction false} BasesSpell(data: Bytes, i: nat)
    requires i < |data|
    ensures SpellsByte(EncodedBases(data), data, i)
  {
    hide ByteBases;
    var n := |data| - 1;
    var front, last := EncodedBases(data[..n]), ByteBases(data[n]);
    if i < n {
      BasesSpell(data[..n], i);
      assert forall k :: 0 <= k < 4 * n ==> EncodedBases(data)[k] == front[k];
    } else {
      LettersOfByte(data[n]);
      assert forall k :: 0 <= k < 4 ==> EncodedBases(data)[4 * n + k] == last[k];
    }
  }

  /** `encode_bases`. */
  method EncodeBases(data: Bytes) returns (output: string)
    ensures |output| == 4 * |data| && forall i: nat :: i < |data| ==> SpellsByte(output, data, i)
    ensures output == EncodedBases(data)
  {
    hide SpellsByte;
    output := "";
    for i := 0 to |data|
      invariant output == EncodedBases(data[..i])
    {
      var byte := data[i];
      output := output + [BaseOf(byte / 4 / 4 / 4 % 4), BaseOf(byte / 4 / 4 % 4), BaseOf(byte / 4 % 4),
        BaseOf(byte % 4)];
      assert data[..i + 1][..i] == data[..i];
    }
    assert data[..|data|] == data;
    forall i: nat | i < |data| ensures SpellsByte(output, data, i) { BasesSpell(data, i); }
  }

  datatype Error = InvalidSymbols | IncompleteByte | WrongIdentity | UnknownTraversal | WrongCells | WrongCodonCount
      | EndedEarly | WrongLengths | WrongContent | WrongHistogram

  /** `decode_bases`. */
  method DecodeBases(bases: string) returns (r: Result<Bytes, Error>)
    ensures r.Ok? <==> ValidBases(bases) && |bases| % 4 == 0
    ensures r.Ok? ==> r.value == DecodedBytes(bases) && EncodedBases(r.value) == bases
  {
    if !ValidBases(bases) {
      return Err(InvalidSymbols);
    }
    if |bases| % 4 != 0 {
      return Err(IncompleteByte);
    }
    hide BasesByte, DecodedBytes;
    var output: Bytes := [];
    EmptyDecodes();
    var start := 0;
    while start < |bases|
      invariant start % 4 == 0 && 0 <= start <= |bases|
      invariant output == DecodedBytes(bases[..start])
    {
      var value := 0;
      for k := 0 to 4
        invariant value == Horner(bases[start..start + k])
      {
        value := value * 4 + ValueOf(bases[start + k]);
        assert bases[start..start + k + 1][..k] == bases[start..start + k];
      }
      var quad := bases[start..start + 4];
      HornerOfByte(quad);
      DecodeAppend(bases[..start], quad);
      assert bases[..start + 4] == bases[..start] + quad;
      output := output + [value];
      start := start + 4;
    }
    assert bases[..|bases|] == bases;
    EncodeDecode(bases);
    r := Ok(output);
  }

  // ----- traversals -----

  datatype Traversal = Lexicographic | PhiGated | OtherTraversal

  /** The cell visited at step `n`. */
  function CellAt(t: Traversal, n: nat): (k: int)
    ensures 0 <= k < CELLS
  {
    if t == PhiGated then (n % CELLS * PHI_STRIDE) % CELLS else n % CELLS
  }

  /** The step, within one cycle, that visits cell `k`; 8 undoes 17 modulo 27. */
  function StepOf(t: Traversal, k: int): (r: int)
    requires 0 <= k < CELLS
    ensures 0 <= r < CELLS
  {
    if t == PhiGated then k * 8 % CELLS else k
  }

  /** Both traversals visit every cell exactly once per cycle. */
  lemma TraversalPermutes(t: Traversal, n: nat, k: int)
    requires 0 <= k < CELLS
    ensures CellAt(t, n) == k <==> n % CELLS == StepOf(t, k)
  {
    var m := n % CELLS;
    assert (m * 17 % 27) * 8 % 27 == m by { StrideInverse(m); }
    assert (k * 8 % 27) * 17 % 27 == k by { InverseStride(k); }
  }

  lemma RemainderIs(x: int, q: int, r: int)
    requires x == 27 * q + r && 0 <= r < 27
    ensures x % 27 == r
  {
  }

  lemma StrideInverse(m: int)
    requires 0 <= m < 27
    ensures (m * 17 % 27) * 8 % 27 == m
  {
    var q, r := m * 17 / 27, m * 17 % 27;
    assert m * 17 == 27 * q + r;
    RemainderIs(r * 8, 5 * m - 8 * q, m);
  }

  lemma InverseStride(k: int)
    requires 0 <= k < 27
    ensures (k * 8 % 27) * 17 % 27 == k
  {
    var q, r := k * 8 / 27, k * 8 % 27;
    assert k * 8 == 27 * q + r;
    RemainderIs(r * 17, 5 * k - 17 * q, k);
  }

  /** How many of the first `n` codons go to cell `k`. */
  function Share(t: Traversal, k: int, n: nat): nat
    requires 0 <= k < CELLS
  {
    if n == 0 then 0 else Share(t, k, n - 1) + (if CellAt(t, n - 1) == k then 1 else 0)
  }

  /** Codon `n` is number `n / 27` of its cell. */
  lemma {:induction false} ShareFormula(t: Traversal, k: int, n: nat)
    requires 0 <= k < CELLS
    ensures Share(t, k, n) == n / CELLS + (if n % CELLS > StepOf(t, k) then 1 else 0)
  {
    if n > 0 {
      ShareFormula(t, k, n - 1);
      TraversalPermutes(t, n - 1, k);
      assert (n - 1) % CELLS == CELLS - 1 || (n / CELLS == (n - 1) / CELLS && n % CELLS == (n - 1) % CELLS + 1);
      if (n - 1) % CELLS == CELLS - 1 { assert n / CELLS == (n - 1) / CELLS + 1 && n % CELLS == 0; }
    }
  }

  lemma OffsetOfCodon(t: Traversal, n: nat)
    ensures Share(t, CellAt(t, n), n) == n / CELLS
  {
    ShareFormula(t, CellAt(t, n), n);
    TraversalPermutes(t, n, CellAt(t, n));
  }

  lemma {:induction false} ShareGrows(t: Traversal, k: int, m: nat, n: nat)
    requires 0 <= k < CELLS && m <= n
    ensures Share(t, k, m) <= Share(t, k, n)
    ensures m < n && CellAt(t, m) == k ==> Share(t, k, m) + 1 <= Share(t, k, n)
  {
    if m < n { ShareGrows(t, k, m, n - 1); }
  }

  // ----- scattering and gathering codons -----

  function Codon(s: string, i: nat): string
    requires 3 * i + 3 <= |s|
  {
    s[3 * i..3 * i + 3]
  }

  /** What cell `k` holds after the first `n` codons of `s`. */
  function Scatter(s: string, t: Traversal, k: int, n: nat): (cell: string)
    requires 0 <= k < CELLS && 3 * n <= |s|
    ensures |cell| == 3 * Share(t, k, n)
  {
    if n == 0 then "" else Scatter(s, t, k, n - 1) + (if CellAt(t, n - 1) == k then Codon(s, n - 1) else "")
  }

  ghost predicate FullCells(cells: seq<string>, t: Traversal, n: nat) {
    |cells| == CELLS && forall k :: 0 <= k < CELLS ==> |cells[k]| == 3 * Share(t, k, n)
  }

  /** The codon string read back, cell by cell along the traversal. */
  function Gather(cells: seq<string>, t: Traversal, total: nat, n: nat): (s: string)
    requires FullCells(cells, t, total) && n <= total
    ensures |s| == 3 * n
  {
    if n == 0 then ""
    else
      CodonInCell(t, n - 1, total);
      Gather(cells, t, total, n - 1) + Codon(cells[CellAt(t, n - 1)], (n - 1) / CELLS)
  }

  /** The codon read at step `n` lies within its cell, so reading never runs short. */
  lemma CodonInCell(t: Traversal, n: nat, total: nat)
    requires n < total
    ensures 3 * (n / CELLS) + 3 <= 3 * Share(t, CellAt(t, n), total)
  {
    OffsetOfCodon(t, n);
    ShareGrows(t, CellAt(t, n), n, total);
  }

  function ScatterAll(s: string, t: Traversal): seq<string>
    requires |s| % 3 == 0
  {
    seq(CELLS, k requires 0 <= k < CELLS => Scatter(s, t, k, |s| / 3))
  }

  lemma {:induction false} ScatterPrefix(s: string, t: Traversal, k: int, m: nat, n: nat)
    requires 0 <= k < CELLS && m <= n && 3 * n <= |s|
    ensures IsPrefix(Scatter(s, t, k, m), Scatter(s, t, k, n))
  {
    if m < n {
      ScatterPrefix(s, t, k, m, n - 1);
    }
  }

  /** Codon `i` of `s` is found in its cell where the gathering looks for it. */
  lemma ScatteredCodon(s: string, t: Traversal, i: nat, n: nat)
    requires i < n && 3 * n <= |s|
    ensures 3 * (i / CELLS) + 3 <= |Scatter(s, t, CellAt(t, i), n)|
    ensures Codon(Scatter(s, t, CellAt(t, i), n), i / CELLS) == Codon(s, i)
  {
    var k := CellAt(t, i);
    OffsetOfCodon(t, i);
    ScatterPrefix(s, t, k, i + 1, n);
    var cell, part := Scatter(s, t, k, n), Scatter(s, t, k, i + 1);
    assert part == Scatter(s, t, k, i) + Codon(s, i);
    assert part[3 * (i / CELLS)..3 * (i / CELLS) + 3] == Codon(s, i);
    assert cell[..|part|][3 * (i / CELLS)..3 * (i / CELLS) + 3] == cell[3 * (i / CELLS)..3 * (i / CELLS) + 3];
  }

  lemma ScatterFull(s: string, t: Traversal)
    requires |s| % 3 == 0
    ensures FullCells(ScatterAll(s, t), t, |s| / 3)
  {
  }

  lemma {:induction false} GatherScatter(s: string, t: Traversal, n: nat)
    requires |s| % 3 == 0 && n <= |s| / 3 && FullCells(ScatterAll(s, t), t, |s| / 3)
    ensures Gather(ScatterAll(s, t), t, |s| / 3, n) == s[..3 * n]
  {
    hide FullCells, Scatter, CellAt, Share;
    if n > 0 {
      GatherScatter(s, t, n - 1);
      ScatteredCodon(s, t, n - 1, |s| / 3);
      CodonInCell(t, n - 1, |s| / 3);
      assert s[..3 * n] == s[..3 * (n - 1)] + Codon(s, n - 1);
    }
  }

  lemma {:induction false} GatherPrefix(cells: seq<string>, t: Traversal, total: nat, m: nat, n: nat)
    requires FullCells(cells, t, total) && m <= n <= total
    ensures Gather(cells, t, total, n)[..3 * m] == Gather(cells, t, total, m)
  {
    if m < n {
      GatherPrefix(cells, t, total, m, n - 1);
      assert Gather(cells, t, total, n)[..3 * m] == Gather(cells, t, total, n - 1)[..3 * m];
    }
  }

  lemma {:induction false} ScatterGather(cells: seq<string>, t: Traversal, total: nat, k: int, m: nat)
    requires FullCells(cells, t, total) && 0 <= k < CELLS && m <= total
    ensures Share(t, k, m) <= Share(t, k, total)
    ensures Scatter(Gather(cells, t, total, total), t, k, m) == cells[k][..3 * Share(t, k, m)]
  {
    ShareGrows(t, k, m, total);
    if m > 0 {
      ScatterGather(cells, t, total, k, m - 1);
      if CellAt(t, m - 1) == k { GatheredCodon(cells, t, total, m - 1); }
    }
  }

  /** Codon `i` of the gathered string is the one its cell holds at its place. */
  lemma GatheredCodon(cells: seq<string>, t: Traversal, total: nat, i: nat)
    requires FullCells(cells, t, total) && i < total
    ensures
      var k := CellAt(t, i);
      && 3 * Share(t, k, i) + 3 <= |cells[k]|
      && cells[k][..3 * Share(t, k, i)] + Codon(Gather(cells, t, total, total), i) == cells[k][..3 * Share(t, k, i) + 3]
  {
    hide Gather, Share, CellAt, ValidBases;
    var k, s := CellAt(t, i), Gather(cells, t, total, total);
    OffsetOfCodon(t, i);
    GatherPrefix(cells, t, total, i + 1, total);
    CodonInCell(t, i, total);
    LastGathered(cells, t, total, i);
    assert s[..3 * (i + 1)][3 * i..] == Codon(s, i);
    CodonFollows(cells[k], i / CELLS);
  }

  lemma LastGathered(cells: seq<string>, t: Traversal, total: nat, i: nat)
    requires FullCells(cells, t, total) && i < total
    ensures 3 * (i / CELLS) + 3 <= |cells[CellAt(t, i)]|
    ensures Gather(cells, t, total, i + 1)[3 * i..] == Codon(cells[CellAt(t, i)], i / CELLS)
  {
    hide Share, CellAt;
    CodonInCell(t, i, total);
  }

  lemma CodonFollows(cell: string, n: nat)
    requires 3 * n + 3 <= |cell|
    ensures cell[..3 * n] + Codon(cell, n) == cell[..3 * n + 3]
  {
  }

  /** Scattering undoes gathering. */
  lemma ScatterAllGather(cells: seq<string>, t: Traversal, total: nat)
    requires FullCells(cells, t, total)
    ensures ScatterAll(Gather(cells, t, total, total), t) == cells
  {
    var s := Gather(cells, t, total, total);
    forall k | 0 <= k < CELLS ensures ScatterAll(s, t)[k] == cells[k] {
      ScatterGather(cells, t, total, k, total);
      assert cells[k][..|cells[k]|] == cells[k];
    }
  }

  // ----- projections -----

  function CodonIndex(c: string): nat
    requires |c| == 3
  {
    ValueOf(c[0]) * 16 + ValueOf(c[1]) * 4 + ValueOf(c[2])
  }

  /** `codon_from_index`. */
  function CodonFrom(v: nat): (c: string)
    ensures |c| == 3
  {
    [BaseOf(v / 4 / 4 % 4), BaseOf(v / 4 % 4), BaseOf(v % 4)]
  }

  /** The codons are numbered one to one from 0 to 63, in the order of their letters. */
  lemma CodonNumbers(c: string, v: nat)
    requires |c| == 3 && ValidBases(c) && v < 64
    ensures CodonIndex(c) < 64 && CodonFrom(CodonIndex(c)) == c
    ensures ValidBases(CodonFrom(v)) && CodonIndex(CodonFrom(v)) == v
  {
    ValueBase(c[0]);
    ValueBase(c[1]);
    ValueBase(c[2]);
    QuarterOf(ValueOf(c[0]) * 4 + ValueOf(c[1]), ValueOf(c[2]));
    QuarterOf(ValueOf(c[0]), ValueOf(c[1]));
    BaseValue(v / 4 / 4);
    BaseValue(v / 4 % 4);
    BaseValue(v % 4);
  }

  lemma CodonsOrdered(a: string, b: string)
    requires |a| == 3 && |b| == 3 && ValidBases(a) && ValidBases(b)
    ensures CodonIndex(a) < CodonIndex(b) <==>
      a[0] < b[0] || (a[0] == b[0] && (a[1] < b[1] || (a[1] == b[1] && a[2] < b[2])))
  {
    LettersOrdered(a[0], b[0]);
    LettersOrdered(a[1], b[1]);
    LettersOrdered(a[2], b[2]);
  }

  lemma LettersOrdered(a: char, b: char)
    requires IsBase(a) && IsBase(b)
    ensures ValueOf(a) < ValueOf(b) <==> a < b
    ensures ValueOf(a) == ValueOf(b) <==> a == b
    ensures 0 <= ValueOf(a) < 4
  {
  }

  function CodonsOf(s: string): seq<nat>
    requires |s| % 3 == 0
  {
    seq(|s| / 3, i requires 0 <= i < |s| / 3 => CodonIndex(Codon(s, i)))
  }

  /** The recorded fields of a projection that the decoder consults. */
  datatype Basis = Basis(
    traversal: Traversal, byteLength: int, baseLength: int, paddingBases: int, codonCount: int,
    contentSha: Id, cells: seq<string>, histogram: multiset<nat>)

  datatype Projection = Projection(id: Id, basis: Basis)

  /** SHA-256 of raw bytes, and of the canonical projection record. */
  datatype Hashing = Hashing(content: Bytes -> Id, projection: Basis -> Id)

  /** The padding a byte string of this length forces. */
  function PaddingFor(length: nat): (p: nat)
    ensures p < 3 && (4 * length + p) % 3 == 0
  {
    (-(4 * length)) % 3
  }

  /** The projection of `data` whose trailing padding bases are `tail`. */
  function BasisWith(h: Hashing, data: Bytes, t: Traversal, tail: string): Basis
    requires |tail| == PaddingFor(|data|)
  {
    var padded := EncodedBases(data) + tail;
    Basis(t, |data|, 4 * |data|, |tail|, |padded| / 3, h.content(data), ScatterAll(padded, t),
      multiset(CodonsOf(padded)))
  }

  function Padding(n: nat): string {
    seq(n, _ => 'A')
  }

  function Encoded(h: Hashing, data: Bytes, t: Traversal): Projection {
    var basis := BasisWith(h, data, t, Padding(PaddingFor(|data|)));
    Projection(h.projection(basis), basis)
  }

  /** What the decoder accepts as a projection of `data`: everything is forced except the symbols of
      the at most two padding bases. */
  ghost predicate ProjectionOf(h: Hashing, p: Projection, data: Bytes) {
    && p.id == h.projection(p.basis) && p.basis.traversal != OtherTraversal
    && exists tail: string :: PaddedWith(h, p, data, tail)
  }

  ghost predicate PaddedWith(h: Hashing, p: Projection, data: Bytes, tail: string) {
    |tail| == PaddingFor(|data|) && ValidBases(tail) && p.basis == BasisWith(h, data, p.basis.traversal, tail)
  }

  /** The letters of `data`, filled up with A to whole codons. */
  ghost predicate Fills(padded: string, data: Bytes) {
    && 4 * |data| <= |padded| < 4 * |data| + 3 && |padded| % 3 == 0
    && (forall i: nat :: i < |data| ==> SpellsByte(padded[..4 * |data|], data, i))
    && forall k :: 4 * |data| <= k < |padded| ==> padded[k] == 'A'
  }

  /** Codon `n` lies at place `n / 27` of the cell its step visits: cells in order, or every 17th modulo 27. */
  ghost predicate Spreads(cells: seq<string>, padded: string, t: Traversal) {
    && |cells| == 27
    && forall n: nat :: 3 * n + 3 <= |padded| ==> CodonPlaced(cells, padded, t, n)
  }

  ghost predicate CodonPlaced(cells: seq<string>, padded: string, t: Traversal, n: nat)
    requires |cells| == 27 && 3 * n + 3 <= |padded|
  {
    var cell := cells[if t == PhiGated then 17 * n % 27 else n % 27];
    var at := 3 * (n / 27);
    at + 3 <= |cell| && cell[at..at + 3] == padded[3 * n..3 * n + 3]
  }

  /** What an encoder records of `data`. */
  ghost predicate Records(h: Hashing, data: Bytes, t: Traversal, b: Basis) {
    && b.traversal == t && b.byteLength == |data| && b.contentSha == h.content(data)
    && b.baseLength == 4 * |data| && b.baseLength + b.paddingBases == 3 * b.codonCount
    && exists padded :: Fills(padded, data) && |padded| == 3 * b.codonCount && Spreads(b.cells, padded, t)
         && b.histogram == multiset(CodonsOf(padded))
  }

  lemma StepCell(t: Traversal, n: nat)
    ensures CellAt(t, n) == if t == PhiGated then 17 * n % 27 else n % 27
  {
    var q, m := n / 27, n % 27;
    RemainderIs(17 * n, 17 * q + 17 * m / 27, 17 * m % 27);
  }

  lemma AllSpread(padded: string, t: Traversal)
    requires |padded| % 3 == 0
    ensures Spreads(ScatterAll(padded, t), padded, t)
  {
    hide CellAt, Scatter;
    var cells := ScatterAll(padded, t);
    forall n: nat | 3 * n + 3 <= |padded| ensures CodonPlaced(cells, padded, t, n) {
      ScatteredCodon(padded, t, n, |padded| / 3);
      StepCell(t, n);
      assert cells[CellAt(t, n)] == Scatter(padded, t, CellAt(t, n), |padded| / 3);
    }
  }

  lemma EncodedRecords(h: Hashing, data: Bytes, t: Traversal)
    ensures Encoded(h, data, t).id == h.projection(Encoded(h, data, t).basis)
    ensures Records(h, data, t, Encoded(h, data, t).basis)
  {
    hide Spreads, ScatterAll, CodonsOf, SpellsByte, EncodedBases;
    var padded := EncodedBases(data) + Padding(PaddingFor(|data|));
    AllSpread(padded, t);
    forall i: nat | i < |data| ensures SpellsByte(EncodedBases(data), data, i) { BasesSpell(data, i); }
    assert padded[..4 * |data|] == EncodedBases(data);
    assert Fills(padded, data);
  }

  /** `encode_projection`. */
  method EncodeProjection(h: Hashing, data: Bytes, t: Traversal) returns (r: Result<Projection, Error>)
    ensures r.Ok? <==> t != OtherTraversal
    ensures r.Ok? ==> r.value.id == h.projection(r.value.basis) && Records(h, data, t, r.value.basis)
    ensures r.Ok? ==> r.value == Encoded(h, data, t)
  {
    hide Records;
    EncodedRecords(h, data, t);
    if t == OtherTraversal {
      return Err(UnknownTraversal);
    }
    var bases := EncodeBases(data);
    var padding := (-|bases|) % 3;
    var padded := bases + seq(padding, _ => 'A');
    assert padded == EncodedBases(data) + Padding(PaddingFor(|data|));
    var cells, histogram := ScatterCodons(padded, t);
    var basis := Basis(t, |data|, |bases|, padding, |padded| / 3, h.content(data), cells, histogram);
    r := Ok(Projection(h.projection(basis), basis));
  }

  /** The assignment loop: codon `n` is appended to the cell visited at step `n`. */
  method ScatterCodons(padded: string, t: Traversal) returns (cells: seq<string>, histogram: multiset<nat>)
    requires |padded| % 3 == 0
    ensures cells == ScatterAll(padded, t) && histogram == multiset(CodonsOf(padded))
  {
    hide CellAt, CodonIndex;
    var count := |padded| / 3;
    cells := seq(CELLS, _ => "");
    histogram := multiset{};
    for n := 0 to count
      invariant |cells| == CELLS && forall k :: 0 <= k < CELLS ==> cells[k] == Scatter(padded, t, k, n)
      invariant histogram == multiset(CodonsOf(padded)[..n])
    {
      var codon := Codon(padded, n);
      cells := cells[CellAt(t, n) := cells[CellAt(t, n)] + codon];
      histogram := histogram + multiset{CodonIndex(codon)};
      assert CodonsOf(padded)[..n + 1] == CodonsOf(padded)[..n] + [CodonIndex(codon)];
    }
    assert CodonsOf(padded)[..count] == CodonsOf(padded);
  }

  /** The checks of the decoder, as one statement about the gathered codon string. */
  ghost predicate Checks(h: Hashing, b: Basis, data: Bytes) {
    && b.codonCount >= 0
    && FullCells(b.cells, b.traversal, b.codonCount)
    && (forall k :: 0 <= k < CELLS ==> ValidBases(b.cells[k]))
    && GatherMatches(h, b, Gather(b.cells, b.traversal, b.codonCount, b.codonCount), data)
  }

  ghost predicate GatherMatches(h: Hashing, b: Basis, padded: string, data: Bytes) {
    && b.baseLength >= 0 && b.byteLength >= 0 && 0 <= b.paddingBases < 3
    && |padded| == b.baseLength + b.paddingBases && b.baseLength == 4 * b.byteLength
    && ValidBases(padded[..b.baseLength]) && DecodesTo(padded[..b.baseLength], data)
    && h.content(data) == b.contentSha
    && |padded| % 3 == 0 && b.histogram == multiset(CodonsOf(padded))
  }

  ghost predicate DecodesTo(s: string, data: Bytes) {
    |s| == 4 * |data| && EncodedBases(data) == s
  }

  lemma {:induction false} ValidScatter(s: string, t: Traversal, k: int, n: nat)
    requires ValidBases(s) && 0 <= k < CELLS && 3 * n <= |s|
    ensures ValidBases(Scatter(s, t, k, n))
  {
    if n > 0 { ValidScatter(s, t, k, n - 1); }
  }

  lemma {:induction false} ValidGather(cells: seq<string>, t: Traversal, total: nat, n: nat)
    requires FullCells(cells, t, total) && n <= total && forall k :: 0 <= k < CELLS ==> ValidBases(cells[k])
    ensures ValidBases(Gather(cells, t, total, n))
  {
    if n > 0 {
      ValidGather(cells, t, total, n - 1);
      CodonInCell(t, n - 1, total);
    }
  }

  /** A projection of `data` passes every check. */
  lemma ProjectionChecks(h: Hashing, p: Projection, data: Bytes, tail: string)
    requires PaddedWith(h, p, data, tail)
    ensures Checks(h, p.basis, data)
  {
    hide EncodedBases, Scatter, CodonsOf, Gather, FullCells, ValidBases, PaddingFor;
    var padded := EncodedBases(data) + tail;
    var t, n := p.basis.traversal, |padded| / 3;
    DecodeEncode(data);
    ScatterFull(padded, t);
    GatherScatter(padded, t, n);
    assert padded[..3 * n] == padded;
    assert padded[..4 * |data|] == EncodedBases(data);
    JoinValid(EncodedBases(data), tail);
    forall k | 0 <= k < CELLS ensures ValidBases(p.basis.cells[k]) {
      ValidScatter(padded, t, k, n);
    }
  }

  lemma JoinValid(a: string, b: string)
    requires ValidBases(a) && ValidBases(b)
    ensures ValidBases(a + b)
  {
  }

  /** And whatever passes every check is a projection: its padding bases are the only freedom. */
  lemma ChecksForce(h: Hashing, p: Projection, data: Bytes)
    requires Checks(h, p.basis, data)
    ensures exists tail: string :: PaddedWith(h, p, data, tail)
  {
    hide EncodedBases, Scatter, CodonsOf, Gather, FullCells, ValidBases;
    var b := p.basis;
    var padded := Gather(b.cells, b.traversal, b.codonCount, b.codonCount);
    ValidGather(b.cells, b.traversal, b.codonCount, b.codonCount);
    var tail := padded[b.baseLength..];
    TailValid(padded, b.baseLength);
    assert padded == EncodedBases(data) + tail;
    ForcedPadding(|data|, b.paddingBases, b.codonCount);
    ScatterAllGather(b.cells, b.traversal, b.codonCount);
    assert PaddedWith(h, p, data, tail);
  }

  lemma TailValid(s: string, i: nat)
    requires ValidBases(s) && i <= |s|
    ensures ValidBases(s[i..])
  {
  }

  /** Whole codons leave exactly one possible padding count. */
  lemma ForcedPadding(length: nat, padding: nat, codons: nat)
    requires padding < 3 && 4 * length + padding == 3 * codons
    ensures padding == PaddingFor(length)
  {
    var p := PaddingFor(length);
    var q := (4 * length + p) / 3;
    assert 4 * length + p == 3 * q;
    assert p - padding == 3 * (q - codons);
  }

  lemma DecodedUnique(s: string, a: Bytes, b: Bytes)
    requires DecodesTo(s, a) && DecodesTo(s, b)
    ensures a == b
  {
    DecodeEncode(a);
    DecodeEncode(b);
  }

  lemma AcceptedIffChecks(h: Hashing, p: Projection)
    ensures forall data :: ProjectionOf(h, p, data) <==>
      p.id == h.projection(p.basis) && p.basis.traversal != OtherTraversal && Checks(h, p.basis, data)
  {
    hide Checks, PaddedWith;
    forall data
      ensures (exists tail: string :: PaddedWith(h, p, data, tail)) <==> Checks(h, p.basis, data)
    {
      if tail: string :| PaddedWith(h, p, data, tail) { ProjectionChecks(h, p, data, tail); }
      if Checks(h, p.basis, data) { ChecksForce(h, p, data); }
    }
  }

  /** `decode_projection`: answers `data` exactly for the projections of `data`. */
  method DecodeProjection(h: Hashing, p: Projection) returns (r: Result<Bytes, Error>)
    ensures forall data :: r == Ok(data) <==> ProjectionOf(h, p, data)
  {
    hide ProjectionOf, GatherMatches, Share, CellAt, Gather, ValidBases;
    AcceptedIffChecks(h, p);
    var b := p.basis;
    if p.id != h.projection(b) {
      return Err(WrongIdentity);
    }
    if b.traversal == OtherTraversal {
      return Err(UnknownTraversal);
    }
    var t := b.traversal;
    if |b.cells| != CELLS || exists k :: 0 <= k < CELLS && (!ValidBases(b.cells[k]) || |b.cells[k]| % 3 != 0) {
      return Err(WrongCells);
    }
    if b.codonCount < 0 {
      return Err(WrongCodonCount);
    }
    if exists k :: 0 <= k < CELLS && |b.cells[k]| != 3 * Share(t, k, b.codonCount) {
      return Err(WrongCodonCount);
    }
    var padded := ReadCodons(b.cells, t, b.codonCount);
    r := DecodePadded(h, b, padded);
  }

  lemma CellsCounted(cells: seq<string>, t: Traversal, total: nat)
    requires FullCells(cells, t, total)
    ensures |cells| == CELLS && forall k :: 0 <= k < CELLS ==> |cells[k]| == 3 * Share(t, k, total)
  {
  }

  /** The reading loop: offsets advance cell by cell and every cell is consumed exactly. */
  method ReadCodons(cells: seq<string>, t: Traversal, total: nat) returns (padded: string)
    requires FullCells(cells, t, total)
    ensures padded == Gather(cells, t, total, total)
  {
    hide CellAt, FullCells;
    padded := "";
    var offsets: seq<nat> := seq(CELLS, _ => 0);
    assert |cells| == CELLS by { CellsCounted(cells, t, total); }
    for n := 0 to total
      invariant |offsets| == CELLS && forall k :: 0 <= k < CELLS ==> offsets[k] == 3 * Share(t, k, n)
      invariant padded == Gather(cells, t, total, n)
    {
      var cell := CellAt(t, n);
      var start := offsets[cell];
      OffsetOfCodon(t, n);
      CodonInCell(t, n, total);
      CellsCounted(cells, t, total);
      if start + 3 > |cells[cell]| {
        assert false;
      }
      padded := padded + cells[cell][start..start + 3];
      offsets := offsets[cell := start + 3];
    }
  }

  /** The length, content and histogram checks on the gathered string. */
  method DecodePadded(h: Hashing, b: Basis, padded: string) returns (r: Result<Bytes, Error>)
    requires |padded| % 3 == 0
    ensures forall data :: r == Ok(data) <==> GatherMatches(h, b, padded, data)
  {
    if b.baseLength < 0 || b.byteLength < 0 || !(0 <= b.paddingBases <= 2) {
      return Err(WrongLengths);
    }
    if |padded| != b.baseLength + b.paddingBases || b.baseLength != b.byteLength * 4 {
      return Err(WrongLengths);
    }
    var decoded := DecodeBases(padded[..b.baseLength]);
    if decoded.Err? {
      return Err(decoded.error);
    }
    var raw := decoded.value;
    forall data | DecodesTo(padded[..b.baseLength], data) ensures data == raw {
      DecodedUnique(padded[..b.baseLength], data, raw);
    }
    if h.content(raw) != b.contentSha {
      return Err(WrongContent);
    }
    if b.histogram != multiset(CodonsOf(padded)) {
      return Err(WrongHistogram);
    }
    r := Ok(raw);
  }

  /** Decoding undoes encoding, for every byte string and both traversals. */
  lemma EncodedIsProjection(h: Hashing, data: Bytes, t: Traversal)
    requires t != OtherTraversal
    ensures forall other :: ProjectionOf(h, Encoded(h, data, t), other) <==> other == data
  {
    var p := Encoded(h, data, t);
    assert ValidBases(Padding(PaddingFor(|data|)));
    assert PaddedWith(h, p, data, Padding(PaddingFor(|data|)));
    forall other | ProjectionOf(h, p, other) ensures other == data {
      var tail: string :| PaddedWith(h, p, other, tail);
      ProjectionChecks(h, p, other, tail);
      ProjectionChecks(h, p, data, Padding(PaddingFor(|data|)));
      SameData(h, p.basis, other, data);
    }
  }

  lemma SameData(h: Hashing, b: Basis, x: Bytes, y: Bytes)
    requires Checks(h, b, x) && Checks(h, b, y)
    ensures x == y
  {
    DecodedUnique(Gather(b.cells, b.traversal, b.codonCount, b.codonCount)[..b.baseLength], x, y);
  }

  /** An accepted projection differs from the encoder's own only in its padding symbols. */
  lemma AcceptedDiffersInPaddingOnly(h: Hashing, p: Projection, data: Bytes)
    requires ProjectionOf(h, p, data)
    ensures
      var own := Encoded(h, data, p.basis.traversal).basis;
      && p.basis.byteLength == own.byteLength == |data| && p.basis.baseLength == own.baseLength
      && p.basis.paddingBases == own.paddingBases == PaddingFor(|data|) && p.basis.codonCount == own.codonCount
      && FullCells(p.basis.cells, p.basis.traversal, own.codonCount)
        && FullCells(own.cells, p.basis.traversal, own.codonCount)
      && var read, rewritten := Gather(p.basis.cells, p.basis.traversal, own.codonCount, own.codonCount),
                                Gather(own.cells, p.basis.traversal, own.codonCount, own.codonCount);
         && |read| == |rewritten| == 4 * |data| + PaddingFor(|data|)
         && read[..4 * |data|] == rewritten[..4 * |data|] == EncodedBases(data)
         && p.basis.histogram == multiset(CodonsOf(read))
    ensures p.basis.contentSha == h.content(data) && p.id == h.projection(p.basis) && p.basis.traversal != OtherTraversal
  {
    var tail: string :| PaddedWith(h, p, data, tail);
    var t := p.basis.traversal;
    hide EncodedBases, Scatter, CodonsOf, Gather, FullCells, ValidBases, PaddingFor;
    var mine, own := EncodedBases(data) + tail, EncodedBases(data) + Padding(PaddingFor(|data|));
    ScatterFull(mine, t);
    ScatterFull(own, t);
    GatherScatter(mine, t, |mine| / 3);
    GatherScatter(own, t, |own| / 3);
    assert mine[..3 * (|mine| / 3)] == mine && own[..3 * (|own| / 3)] == own;
    assert mine[..4 * |data|] == own[..4 * |data|];
  }
}
