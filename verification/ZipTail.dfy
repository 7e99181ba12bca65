/** The backward search for the ZIP end record (`_preflight_member_count` in `storage/archive_safety.py`;
    section 4.3.16 of PKWARE APPNOTE.TXT). */
module ZipTail {
  import opened Common

  const SIGNATURE: Bytes := [0x50, 0x4B, 0x05, 0x06]
  const RECORD := 22
  const MAX_COMMENT := 0xFFFF
  const MAX_SEARCH := RECORD + MAX_COMMENT
  const MAX_MEMBER_COUNT := 10_000

  datatype Refusal = NotFound | MultiDisk | Zip64 | TooManyMembers | WrongBounds

  // ----- the record -----

  function U16(s: Bytes, i: nat): nat
    requires i + 2 <= |s|
  {
    (s[i + 1] as int) * 256 + s[i]
  }

  function U32(s: Bytes, i: nat): nat
    requires i + 4 <= |s|
  {
    U16(s, i) + 65536 * U16(s, i + 2)
  }

  predicate SignatureAt(s: Bytes, o: nat) {
    o + 4 <= |s| && s[o..o + 4] == SIGNATURE
  }

  /** A record whose comment reaches exactly to the end. */
  predicate EndRecordAt(s: Bytes, o: nat) {
    SignatureAt(s, o) && o + RECORD <= |s| && o + RECORD + U16(s, o + 20) == |s|
  }

  ghost predicate LastEndRecord(s: Bytes, o: nat) {
    EndRecordAt(s, o) && forall i: nat :: i > o ==> !EndRecordAt(s, i)
  }

  datatype Directory = Directory(disk: nat, centralDisk: nat, onDisk: nat, total: nat, size: nat, offset: nat)

  function DirectoryAt(s: Bytes, o: nat): Directory
    requires o + RECORD <= |s|
  {
    Directory(U16(s, o + 4), U16(s, o + 6), U16(s, o + 8), U16(s, o + 10), U32(s, o + 12), U32(s, o + 16))
  }

  /** One disk, no ZIP64 marker, few enough members, and a directory that ends before its own end record. */
  function Objection(d: Directory, at: nat): Option<Refusal> {
    if d.disk != 0 || d.centralDisk != 0 || d.onDisk != d.total then Some(MultiDisk)
    else if d.total == 0xFFFF || d.size == 0xFFFFFFFF || d.offset == 0xFFFFFFFF then Some(Zip64)
    else if d.total > MAX_MEMBER_COUNT then Some(TooManyMembers)
    else if d.offset + d.size > at then Some(WrongBounds)
    else None
  }

  /** What an accepted directory satisfies. */
  ghost predicate WithinBounds(d: Directory, at: nat) {
    && d.disk == d.centralDisk == 0 && d.onDisk == d.total <= 10_000
    && d.size != 0xFFFF_FFFF && d.offset != 0xFFFF_FFFF && d.offset + d.size <= at
  }

  // ----- what an archiver writes -----

  predicate Encodable(d: Directory, comment: Bytes) {
    && d.disk < 65536 && d.centralDisk < 65536 && d.onDisk < 65536 && d.total < 65536
    && d.size < 0x1_0000_0000 && d.offset < 0x1_0000_0000 && |comment| < 65536
  }

  /** The end record and its comment: fields of two and four bytes, low byte first. */
  function WrittenRecord(d: Directory, comment: Bytes): (s: Bytes)
    requires Encodable(d, comment)
    ensures |s| == 22 + |comment|
  {
    [0x50, 0x4B, 0x05, 0x06,
     d.disk % 256, d.disk / 256, d.centralDisk % 256, d.centralDisk / 256,
     d.onDisk % 256, d.onDisk / 256, d.total % 256, d.total / 256,
     d.size % 256, d.size / 256 % 256, d.size / 65536 % 256, d.size / 0x100_0000,
     d.offset % 256, d.offset / 256 % 256, d.offset / 65536 % 256, d.offset / 0x100_0000,
     |comment| % 256, |comment| / 256] + comment
  }

  lemma FourBytes(v: nat)
    ensures v == v % 256 + 256 * (v / 256 % 256) + 65536 * (v / 65536 % 256 + 256 * (v / 0x100_0000))
  {
    assert v / 65536 == v / 256 / 256 && v / 0x100_0000 == v / 256 / 256 / 256;
  }

  /** Reading an end record gives the fields that were written. */
  lemma ReadsWhatIsWritten(body: Bytes, d: Directory, comment: Bytes)
    requires Encodable(d, comment)
    ensures EndRecordAt(body + WrittenRecord(d, comment), |body|)
    ensures DirectoryAt(body + WrittenRecord(d, comment), |body|) == d
  {
    var w, o := WrittenRecord(d, comment), |body|;
    var s := body + w;
    assert forall i :: 0 <= i < 22 ==> s[o + i] == w[i];
    assert s[o..o + 4] == [s[o], s[o + 1], s[o + 2], s[o + 3]];
    assert w[0] == 0x50 && w[1] == 0x4B && w[2] == 0x05 && w[3] == 0x06;
    FourBytes(d.size);
    FourBytes(d.offset);
  }

  /** An archive as they are usually written: on one disk, with no more than 10,000 members, its directory
      before the end record, and no further end record inside the comment. */
  ghost predicate Ordinary(archive: Bytes, total: nat, size: nat, offset: nat, comment: Bytes) {
    var d := Directory(0, 0, total, total, size, offset);
    var at := |archive| - 22 - |comment|;
    && total <= 10_000 && size < 0xFFFF_FFFF && offset < 0xFFFF_FFFF && Encodable(d, comment)
    && at >= offset + size && archive[at..] == WrittenRecord(d, comment)
    && (forall i: nat :: at < i ==> !EndRecordAt(archive, i))
  }

  lemma OrdinaryRecord(archive: Bytes, total: nat, size: nat, offset: nat, comment: Bytes) returns (o: nat)
    requires Ordinary(archive, total, size, offset, comment)
    ensures LastEndRecord(archive, o) && DirectoryAt(archive, o).total == total
    ensures Objection(DirectoryAt(archive, o), o) == None
  {
    hide WrittenRecord;
    o := |archive| - 22 - |comment|;
    var d := Directory(0, 0, total, total, size, offset);
    ReadsWhatIsWritten(archive[..o], d, comment);
    assert archive == archive[..o] + archive[o..];
  }

  // ----- the search -----

  /** `tail.rfind(signature, 0, end)`. */
  method RFind(tail: Bytes, end: nat) returns (o: int)
    requires end <= |tail|
    ensures -1 <= o && (o >= 0 ==> SignatureAt(tail, o) && o + 4 <= end)
    ensures forall i: nat :: o < i && i + 4 <= end ==> !SignatureAt(tail, i)
  {
    o := end - 4;
    while o >= 0 && tail[o..o + 4] != SIGNATURE
      invariant -4 <= o <= end - 4
      invariant forall i: nat :: o < i && i + 4 <= end ==> !SignatureAt(tail, i)
    {
      o := o - 1;
    }
    if o < 0 {
      o := -1;
    }
  }

  /** No signature overlaps another, so searching before the last match skips none. */
  lemma NoOverlap(s: Bytes, o: nat, i: nat)
    requires SignatureAt(s, o) && o - 4 < i < o
    ensures !SignatureAt(s, i)
  {
    assert s[o..o + 4][0] == s[o] && s[i..i + 4][o - i] == s[o];
    assert SIGNATURE[o - i] != SIGNATURE[0];
  }

  /** The loop over the tail: the last end record in it decides. */
  method SearchTail(tail: Bytes, before: nat) returns (r: Result<nat, Refusal>)
    ensures r == Err(NotFound) <==> forall o: nat :: !EndRecordAt(tail, o)
    ensures forall o: nat :: LastEndRecord(tail, o) ==>
      r == match Objection(DirectoryAt(tail, o), before + o)
           case None => Ok(DirectoryAt(tail, o).total)
           case Some(refusal) => Err(refusal)
  {
    hide U16, U32, SignatureAt;
    var end: nat := |tail|;
    NoneBeyond(tail);
    while true
      invariant end <= |tail| && forall i: nat :: i + 4 > end ==> !EndRecordAt(tail, i)
      decreases end
    {
      var offset := RFind(tail, end);
      forall i: nat | i > offset ensures !EndRecordAt(tail, i) { OnlySignatures(tail, i); }
      if offset < 0 {
        return Err(NotFound);
      }
      SignatureFits(tail, offset);
      if offset + RECORD <= |tail| && offset + RECORD + U16(tail, offset + 20) == |tail| {
        assert EndRecordAt(tail, offset);
        forall o: nat | LastEndRecord(tail, o) ensures o == offset {}
        var d := DirectoryAt(tail, offset);
        if d.disk != 0 || d.centralDisk != 0 || d.onDisk != d.total {
          return Err(MultiDisk);
        }
        if d.total == 0xFFFF || d.size == 0xFFFFFFFF || d.offset == 0xFFFFFFFF {
          return Err(Zip64);
        }
        if d.total > MAX_MEMBER_COUNT {
          return Err(TooManyMembers);
        }
        if d.offset + d.size > before + offset {
          return Err(WrongBounds);
        }
        return Ok(d.total);
      }
      assert !EndRecordAt(tail, offset);
      forall i: nat | i + 4 > offset ensures !EndRecordAt(tail, i) {
        if i < offset { NoOverlap(tail, offset, i); OnlySignatures(tail, i); }
      }
      end := offset;
    }
  }

  lemma NoneBeyond(s: Bytes)
    ensures forall i: nat :: i + 4 > |s| ==> !EndRecordAt(s, i)
  {
  }

  lemma OnlySignatures(s: Bytes, i: nat)
    ensures EndRecordAt(s, i) ==> SignatureAt(s, i)
  {
  }

  lemma SignatureFits(s: Bytes, o: nat)
    requires SignatureAt(s, o)
    ensures o + 4 <= |s|
  {
  }

  function TailLength(archive: Bytes): nat {
    if |archive| < MAX_SEARCH then |archive| else MAX_SEARCH
  }

  /** An end record anywhere in the file lies within the tail, at the same distance from the end. */
  lemma TailHasThemAll(archive: Bytes, o: nat)
    ensures
      var before := |archive| - TailLength(archive);
      EndRecordAt(archive, o) <==> o >= before && EndRecordAt(archive[before..], o - before)
  {
    var before := |archive| - TailLength(archive);
    var tail := archive[before..];
    if o >= before && o + RECORD <= |archive| {
      assert archive[o..o + 4] == tail[o - before..o - before + 4];
      assert U16(archive, o + 20) == U16(tail, o - before + 20);
    }
    if EndRecordAt(archive, o) {
      assert U16(archive, o + 20) <= MAX_COMMENT;
    }
  }

  lemma SameDirectory(archive: Bytes, o: nat)
    requires |archive| - TailLength(archive) <= o && o + RECORD <= |archive|
    ensures
      var before := |archive| - TailLength(archive);
      DirectoryAt(archive, o) == DirectoryAt(archive[before..], o - before)
  {
  }

  /** The last end record of the file is the last one of its tail. */
  lemma LastInTail(archive: Bytes, o: nat)
    requires LastEndRecord(archive, o)
    ensures
      var before := |archive| - TailLength(archive);
      && before <= o && o + RECORD <= |archive| && LastEndRecord(archive[before..], o - before)
      && DirectoryAt(archive, o) == DirectoryAt(archive[before..], o - before)
  {
    hide U16, U32, SignatureAt, DirectoryAt;
    var before := |archive| - TailLength(archive);
    TailHasThemAll(archive, o);
    SameDirectory(archive, o);
    forall i: nat | i > o - before ensures !EndRecordAt(archive[before..], i) {
      TailHasThemAll(archive, before + i);
    }
  }

  /** `_preflight_member_count`: reading only the tail decides as reading the whole file would.  The last record
      whose comment reaches the end of the file is judged, and an accepted count is at most ten thousand. */
  method PreflightMemberCount(archive: Bytes) returns (r: Result<nat, Refusal>)
    ensures r == Err(NotFound) <==> forall o: nat :: !EndRecordAt(archive, o)
    ensures forall o: nat :: LastEndRecord(archive, o) ==>
      r == match Objection(DirectoryAt(archive, o), o)
           case None => Ok(DirectoryAt(archive, o).total)
           case Some(refusal) => Err(refusal)
    ensures forall n :: r == Ok(n) <==> exists o: nat ::
      LastEndRecord(archive, o) && n == DirectoryAt(archive, o).total && WithinBounds(DirectoryAt(archive, o), o)
    ensures forall total: nat, size: nat, offset: nat, comment ::
      Ordinary(archive, total, size, offset, comment) ==> r == Ok(total)
  {
    hide Ordinary, U16, U32, Objection;
    var before := |archive| - TailLength(archive);
    var tail := archive[before..];
    r := SearchTail(tail, before);
    Decided(archive, r);
    forall total: nat, size: nat, offset: nat, comment | Ordinary(archive, total, size, offset, comment)
      ensures r == Ok(total)
    {
      var o := OrdinaryRecord(archive, total, size, offset, comment);
    }
  }

  lemma Decided(archive: Bytes, r: Result<nat, Refusal>)
    requires
      var before := |archive| - TailLength(archive);
      var tail := archive[before..];
      && (r == Err(NotFound) <==> forall o: nat :: !EndRecordAt(tail, o))
      && forall o: nat :: LastEndRecord(tail, o) ==>
           r == match Objection(DirectoryAt(tail, o), before + o)
                case None => Ok(DirectoryAt(tail, o).total)
                case Some(refusal) => Err(refusal)
    ensures r == Err(NotFound) <==> forall o: nat :: !EndRecordAt(archive, o)
    ensures forall o: nat :: LastEndRecord(archive, o) ==>
      r == match Objection(DirectoryAt(archive, o), o)
           case None => Ok(DirectoryAt(archive, o).total)
           case Some(refusal) => Err(refusal)
    ensures forall n :: r == Ok(n) <==> exists o: nat ::
      LastEndRecord(archive, o) && n == DirectoryAt(archive, o).total && WithinBounds(DirectoryAt(archive, o), o)
  {
    hide U16, U32, SignatureAt, DirectoryAt, Objection, WithinBounds;
    var before := |archive| - TailLength(archive);
    var tail := archive[before..];
    forall o: nat | LastEndRecord(archive, o)
      ensures r == match Objection(DirectoryAt(archive, o), o)
                   case None => Ok(DirectoryAt(archive, o).total)
                   case Some(refusal) => Err(refusal)
    {
      LastInTail(archive, o);
    }
    if o: nat :| EndRecordAt(archive, o) {
      TailHasThemAll(archive, o);
      var last := LastOf(archive, o);
      AcceptedIsWithinBounds(DirectoryAt(archive, last), last);
      forall i: nat | LastEndRecord(archive, i) ensures i == last {}
    } else if i: nat :| EndRecordAt(tail, i) {
      TailHasThemAll(archive, before + i);
    }
  }

  lemma AcceptedIsWithinBounds(d: Directory, at: nat)
    ensures Objection(d, at).None? <==> WithinBounds(d, at)
  {
  }

  /** Where there is an end record there is a last one. */
  lemma {:induction false} LastOf(s: Bytes, o: nat) returns (last: nat)
    requires EndRecordAt(s, o)
    ensures LastEndRecord(s, last)
    decreases |s| - o
  {
    if i: nat :| i > o && EndRecordAt(s, i) {
      last := LastOf(s, i);
    } else {
      last := o;
    }
  }
}
