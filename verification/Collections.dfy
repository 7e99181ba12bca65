/** Collection snapshots and their compare-and-swap HEAD (`storage/control_store.py`): planning one
    update, previewing it, and what the planned writes keep. */
module Collections {
  import opened Common
  import opened Vault

  datatype Write = PutDescriptor(descriptor: Descriptor) | PutSnapshot(snapshot: Snapshot)
      | MoveHead(collection: Id, target: Id)

  datatype Error = UnknownCollection | UnknownSnapshot | AddAndRemove | NotMember | UnknownFile | StricterFile
      | StaleHead | Collision

  // ----- sets of identities in ascending order -----

  lemma {:induction false} HasMinimum(s: set<Id>, y: Id)
    requires y in s
    ensures exists m :: m in s && forall x :: x in s ==> m <= x
    decreases y
  {
    if x :| x in s && x < y {
      HasMinimum(s, x);
    }
  }

  function Minimum(s: set<Id>): (m: Id)
    requires s != {}
    ensures m in s && forall x :: x in s ==> m <= x
  {
    assert exists y :: y in s;
    assert exists m :: m in s && forall x :: x in s ==> m <= x by {
      var y :| y in s;
      HasMinimum(s, y);
    }
    var m :| m in s && forall x :: x in s ==> m <= x;
    m
  }

  /** `sorted(members)`. */
  function Ascending(s: set<Id>): (r: seq<Id>)
    ensures StrictlyAscending(r)
    ensures forall x :: x in r <==> x in s
    decreases |s|
  {
    if s == {} then []
    else
      var m := Minimum(s);
      [m] + Ascending(s - {m})
  }

  lemma TailMembers(a: seq<Id>)
    requires StrictlyAscending(a) && a != []
    ensures forall x :: x in a[1..] <==> x in a && x != a[0]
  {
    assert a == [a[0]] + a[1..];
    forall x | x in a[1..] ensures x != a[0] {
      var i :| 0 <= i < |a[1..]| && a[1..][i] == x;
      assert a[i + 1] == x;
    }
  }

  /** An ascending sequence is determined by its members. */
  lemma {:induction false} AscendingUnique(a: seq<Id>, b: seq<Id>)
    requires StrictlyAscending(a) && StrictlyAscending(b) && forall x :: x in a <==> x in b
    ensures a == b
  {
    if b != [] { assert b[0] in a; }
    if a != [] {
      assert a[0] in b && b != [];
      assert b[0] in a;
      var i :| 0 <= i < |a| && a[i] == b[0];
      var j :| 0 <= j < |b| && b[j] == a[0];
      assert a[0] <= a[i] && b[0] <= b[j];
      assert a == [a[0]] + a[1..] && b == [b[0]] + b[1..];
      TailMembers(a);
      TailMembers(b);
      AscendingUnique(a[1..], b[1..]);
    }
  }

  // ----- one update -----

  function SetOf(s: seq<Id>): set<Id> {
    set x | x in s
  }

  /** The first objection raised while the proposed members are checked in order. */
  function MemberObjection(h: Hashes, v: Store, privacy: Privacy, members: seq<Id>): Option<Error> {
    if members == [] then None
    else if !HasFile(h, v, members[0]) then Some(UnknownFile)
    else if v.files[members[0]].basis.privacy.Rank() > privacy.Rank() then Some(StricterFile)
    else MemberObjection(h, v, privacy, members[1..])
  }

  /** `_proposed_collection_update`: the next members, in ascending order. */
  function Proposed(h: Hashes, v: Store, c: Id, add: set<Id>, remove: set<Id>): Result<seq<Id>, Error> {
    if !HasCollection(h, v, c) then Err(UnknownCollection)
    else if !HasSnapshot(h, v, c, v.heads[c]) then Err(UnknownSnapshot)
    else
      var members := SetOf(Current(v, c).basis.members);
      if add * remove != {} then Err(AddAndRemove)
      else if remove - members != {} then Err(NotMember)
      else
        var next := Ascending(members + add - remove);
        match MemberObjection(h, v, v.collections[c].basis.privacy, next)
        case Some(error) => Err(error)
        case None => Ok(next)
  }

  function Current(v: Store, c: Id): Snapshot
    requires c in v.heads && SnapshotKey(c, v.heads[c]) in v.snapshots
  {
    v.snapshots[SnapshotKey(c, v.heads[c])]
  }

  datatype PreviewReport = PreviewReport(head: Id, revision: int, nextRevision: int, changed: bool, members: seq<Id>)

  /** `preview_collection_update`. */
  function Preview(h: Hashes, v: Store, c: Id, add: set<Id>, remove: set<Id>): Result<PreviewReport, Error> {
    var next :- Proposed(h, v, c, add, remove);
    var now := Current(v, c);
    Ok(PreviewReport(now.id, now.basis.revision,
                     if next == now.basis.members then now.basis.revision else now.basis.revision + 1,
                     next != now.basis.members, next))
  }

  function NextSnapshot(h: Hashes, v: Store, c: Id, members: seq<Id>, createdAt: string): Snapshot
    requires c in v.heads && SnapshotKey(c, v.heads[c]) in v.snapshots
  {
    var basis := SnapshotBasis(c, Current(v, c).basis.revision + 1, Some(Current(v, c).id), createdAt, members);
    Snapshot(h.snapshot(basis), basis)
  }

  /** `update_collection` under the lock: nothing to write, or the new snapshot and then HEAD. */
  function PlanUpdate(h: Hashes, v: Store, c: Id, add: set<Id>, remove: set<Id>, expected: Option<Id>,
      createdAt: string): Result<seq<Write>, Error> {
    var next :- Proposed(h, v, c, add, remove);
    if expected.Some? && Current(v, c).id != expected.value then Err(StaleHead)
    else if next == Current(v, c).basis.members then Ok([])
    else
      var s := NextSnapshot(h, v, c, next, createdAt);
      var key := SnapshotKey(c, s.id);
      if key in v.snapshots && v.snapshots[key] != s then Err(Collision)
      else Ok((if key in v.snapshots then [] else [PutSnapshot(s)]) + [MoveHead(c, s.id)])
  }

  /** `create_collection` under its own lock. */
  function PlanCreate(h: Hashes, v: Store, basis: CollectionBasis): Result<seq<Write>, Error> {
    var d := Descriptor(h.collection(basis), basis);
    if d.id in v.collections then
      if v.collections[d.id] != d then Err(Collision)
      else if d.id !in v.heads then Err(UnknownSnapshot)
      else Ok([])
    else
      var first := FirstSnapshot(h, d);
      var key := SnapshotKey(d.id, first.id);
      if key in v.snapshots && v.snapshots[key] != first then Err(Collision)
      else Ok([PutDescriptor(d)] + (if key in v.snapshots then [] else [PutSnapshot(first)])
        + [MoveHead(d.id, first.id)])
  }

  function FirstSnapshot(h: Hashes, d: Descriptor): Snapshot {
    var basis := SnapshotBasis(d.id, 0, None, d.basis.createdAt, []);
    Snapshot(h.snapshot(basis), basis)
  }

  function Apply(v: Store, w: Write): Store {
    match w
    case PutDescriptor(d) => v.(collections := v.collections[d.id := d])
    case PutSnapshot(s) => v.(snapshots := v.snapshots[SnapshotKey(s.basis.collection, s.id) := s])
    case MoveHead(c, s) => v.(heads := v.heads[c := s])
  }

  function ApplyAll(v: Store, ws: seq<Write>): Store
    decreases |ws|
  {
    if ws == [] then v else ApplyAll(Apply(v, ws[0]), ws[1..])
  }

  // ----- snapshot lineage -----

  /** The record itself is sound: right name, right Collection, members ascending. */
  predicate RecordSound(h: Hashes, c: Id, s: Snapshot) {
    h.snapshot(s.basis) == s.id && s.basis.collection == c && StrictlyAscending(s.basis.members)
  }

  /** The snapshots from revision 0 up to `s`, which carries revision `n`. */
  function Lineage(h: Hashes, snapshots: map<SnapshotKey, Snapshot>, c: Id, s: Id, n: nat): Option<seq<Snapshot>>
    decreases n
  {
    var key := SnapshotKey(c, s);
    if key !in snapshots || snapshots[key].id != s || !RecordSound(h, c, snapshots[key])
      || snapshots[key].basis.revision != n then None
    else
      match snapshots[key].basis.previous
      case None => if n == 0 then Some([snapshots[key]]) else None
      case Some(previous) =>
        if n == 0 then None
        else
          match Lineage(h, snapshots, c, previous, n - 1)
          case None => None
          case Some(older) => Some(older + [snapshots[key]])
  }

  /** No member is stricter than the Collection. */
  predicate MembersAllowed(h: Hashes, v: Store, privacy: Privacy, members: seq<Id>) {
    forall i :: 0 <= i < |members| ==>
      HasFile(h, v, members[i]) && v.files[members[i]].basis.privacy.Rank() <= privacy.Rank()
  }

  ghost predicate LineageAllowed(h: Hashes, v: Store, privacy: Privacy, chain: seq<Snapshot>) {
    forall i :: 0 <= i < |chain| ==> MembersAllowed(h, v, privacy, chain[i].basis.members)
  }

  /** The HEAD of `c`, should it be `s`, has a lineage down to revision 0 within the privacy class. */
  ghost predicate HeadSound(h: Hashes, v: Store, snapshots: map<SnapshotKey, Snapshot>, c: Id, s: Id) {
    && SnapshotKey(c, s) in snapshots && c in v.collections
    && var n := snapshots[SnapshotKey(c, s)].basis.revision;
       n >= 0 && Lineage(h, snapshots, c, s, n).Some?
       && LineageAllowed(h, v, v.collections[c].basis.privacy, Lineage(h, snapshots, c, s, n).value)
  }

  /** A stored snapshot, HEAD or not, has its lineage down to revision 0. */
  ghost predicate Rooted(h: Hashes, snapshots: map<SnapshotKey, Snapshot>, k: SnapshotKey) {
    && k in snapshots && snapshots[k].basis.revision >= 0
    && Lineage(h, snapshots, k.collection, k.snapshot, snapshots[k].basis.revision).Some?
  }

  ghost predicate CollectionsInv(h: Hashes, v: Store) {
    && StoreSound(h, v)
    && (forall c :: c in v.collections ==> v.collections[c].id == c && h.collection(v.collections[c].basis) == c)
    && (forall k :: k in v.snapshots ==>
      v.snapshots[k].id == k.snapshot && RecordSound(h, k.collection, v.snapshots[k]))
    && (forall c :: c in v.heads ==> HeadSound(h, v, v.snapshots, c, v.heads[c]))
    && (forall k :: k in v.snapshots ==> Rooted(h, v.snapshots, k))
  }

  ghost predicate SubSnapshots(a: map<SnapshotKey, Snapshot>, b: map<SnapshotKey, Snapshot>) {
    forall k :: k in a ==> k in b && b[k] == a[k]
  }

  lemma {:induction false} LineageGrows(h: Hashes, a: map<SnapshotKey, Snapshot>, b: map<SnapshotKey, Snapshot>, c: Id,
      s: Id, n: nat)
    requires SubSnapshots(a, b) && Lineage(h, a, c, s, n).Some?
    ensures Lineage(h, b, c, s, n) == Lineage(h, a, c, s, n)
    decreases n
  {
    var e := a[SnapshotKey(c, s)];
    if e.basis.previous.Some? {
      LineageGrows(h, a, b, c, e.basis.previous.value, n - 1);
    }
  }

  lemma RootedGrows(h: Hashes, a: map<SnapshotKey, Snapshot>, b: map<SnapshotKey, Snapshot>, k: SnapshotKey)
    requires SubSnapshots(a, b) && Rooted(h, a, k)
    ensures Rooted(h, b, k)
  {
    LineageGrows(h, a, b, k.collection, k.snapshot, a[k].basis.revision);
  }

  function SnapshotBefore(chain: seq<Snapshot>, i: nat): Option<Id>
    requires i <= |chain|
  {
    if i == 0 then None else Some(chain[i - 1].id)
  }

  /** Position `i` of a lineage carries revision `i` and links to the snapshot before it. */
  ghost predicate Consecutive(chain: seq<Snapshot>) {
    forall i :: 0 <= i < |chain| ==>
      chain[i].basis.revision == i && chain[i].basis.previous == SnapshotBefore(chain, i)
  }

  lemma {:induction false} LineageConsecutive(h: Hashes, snapshots: map<SnapshotKey, Snapshot>, c: Id, s: Id, n: nat)
    requires Lineage(h, snapshots, c, s, n).Some?
    ensures
      var chain := Lineage(h, snapshots, c, s, n).value;
      && |chain| == n + 1 && chain[n].id == s && Consecutive(chain)
      && forall i :: 0 <= i <= n ==>
        RecordSound(h, c, chain[i])
        && SnapshotKey(c, chain[i].id) in snapshots && snapshots[SnapshotKey(c, chain[i].id)] == chain[i]
    decreases n
  {
    var e := snapshots[SnapshotKey(c, s)];
    if e.basis.previous.Some? {
      LineageConsecutive(h, snapshots, c, e.basis.previous.value, n - 1);
      ConsecutiveExtends(Lineage(h, snapshots, c, e.basis.previous.value, n - 1).value, e);
    }
  }

  lemma ConsecutiveExtends(chain: seq<Snapshot>, e: Snapshot)
    requires Consecutive(chain) && chain != [] && e.basis.revision == |chain|
      && e.basis.previous == Some(chain[|chain| - 1].id)
    ensures Consecutive(chain + [e])
  {
    var all := chain + [e];
    forall i | 0 <= i < |all| ensures all[i].basis.revision == i && all[i].basis.previous == SnapshotBefore(all, i) {
      if i < |chain| { assert all[i] == chain[i] && SnapshotBefore(all, i) == SnapshotBefore(chain, i); }
    }
  }

  lemma MembersAllowedGrows(h: Hashes, v: Store, v': Store, privacy: Privacy, members: seq<Id>)
    requires Grows(v, v') && MembersAllowed(h, v, privacy, members)
    ensures MembersAllowed(h, v', privacy, members)
  {
    forall i | 0 <= i < |members| ensures HasFile(h, v', members[i]) {
      assert HasFile(h, v, members[i]);
    }
  }

  lemma HeadSoundGrows(h: Hashes, v: Store, v': Store, a: map<SnapshotKey, Snapshot>, b: map<SnapshotKey, Snapshot>,
      c: Id, s: Id)
    requires Grows(v, v') && SubSnapshots(a, b) && HeadSound(h, v, a, c, s)
    ensures HeadSound(h, v', b, c, s)
  {
    var n := a[SnapshotKey(c, s)].basis.revision;
    LineageGrows(h, a, b, c, s, n);
    var chain := Lineage(h, a, c, s, n).value;
    forall i | 0 <= i < |chain| ensures MembersAllowed(h, v', v.collections[c].basis.privacy, chain[i].basis.members) {
      MembersAllowedGrows(h, v, v', v.collections[c].basis.privacy, chain[i].basis.members);
    }
  }

  lemma {:induction false} NoObjection(h: Hashes, v: Store, privacy: Privacy, members: seq<Id>)
    ensures MemberObjection(h, v, privacy, members).None? <==> MembersAllowed(h, v, privacy, members)
  {
    if members != [] {
      NoObjection(h, v, privacy, members[1..]);
      assert members == [members[0]] + members[1..];
      if MembersAllowed(h, v, privacy, members) {
        forall i | 0 <= i < |members[1..]| ensures HasFile(h, v, members[1..][i])
          && v.files[members[1..][i]].basis.privacy.Rank() <= privacy.Rank() {
          assert members[1..][i] == members[i + 1];
        }
      }
    }
  }

  /** `next` lists, in ascending order, what was there or is added and is not removed. */
  ghost predicate ListsUpdate(members: seq<Id>, add: set<Id>, remove: set<Id>, next: seq<Id>) {
    && StrictlyAscending(next)
    && forall f :: f in next <==> (f in members || f in add) && f !in remove
  }

  ghost predicate MayBeMember(h: Hashes, v: Store, c: Id, f: Id) {
    HasFile(h, v, f) && c in v.collections
      && v.files[f].basis.privacy.Rank() <= v.collections[c].basis.privacy.Rank()
  }

  /** The Collection is readable, only members are removed, nothing is both added and removed, and every
      member to be is a known File no stricter than the Collection. */
  ghost predicate MayUpdate(h: Hashes, v: Store, c: Id, add: set<Id>, remove: set<Id>) {
    && HasCollection(h, v, c) && HasSnapshot(h, v, c, v.heads[c])
    && var members := Current(v, c).basis.members;
       && (forall f :: f in add ==> f !in remove)
       && (forall f :: f in remove ==> f in members)
       && (forall f :: (f in members || f in add) && f !in remove ==> MayBeMember(h, v, c, f))
  }

  lemma Apart(a: set<Id>, b: set<Id>)
    ensures a * b == {} <==> forall f :: f in a ==> f !in b
  {
    if f :| f in a && f in b {
      assert f in a * b;
    }
  }

  lemma AllowedOneByOne(h: Hashes, v: Store, c: Id, members: seq<Id>)
    requires c in v.collections
    ensures MembersAllowed(h, v, v.collections[c].basis.privacy, members) <==>
      forall f :: f in members ==> MayBeMember(h, v, c, f)
  {
    hide HasFile;
    if forall f :: f in members ==> MayBeMember(h, v, c, f) {
      forall i | 0 <= i < |members| ensures MayBeMember(h, v, c, members[i]) {
        assert members[i] in members;
      }
    }
  }

  lemma ProposedMeans(h: Hashes, v: Store, c: Id, add: set<Id>, remove: set<Id>)
    ensures Proposed(h, v, c, add, remove).Ok? <==> MayUpdate(h, v, c, add, remove)
    ensures Proposed(h, v, c, add, remove).Ok? ==>
      && c in v.heads && SnapshotKey(c, v.heads[c]) in v.snapshots
      && ListsUpdate(Current(v, c).basis.members, add, remove, Proposed(h, v, c, add, remove).value)
  {
    hide HasFile, MemberObjection;
    if HasCollection(h, v, c) && HasSnapshot(h, v, c, v.heads[c]) {
      var members, privacy := Current(v, c).basis.members, v.collections[c].basis.privacy;
      var next := Ascending(SetOf(members) + add - remove);
      Apart(add, remove);
      assert remove - SetOf(members) == {} <==> forall f :: f in remove ==> f in members by {
        assert forall f :: f in remove - SetOf(members) <==> f in remove && f !in members;
      }
      NoObjection(h, v, privacy, next);
      AllowedOneByOne(h, v, c, next);
    }
  }

  /** The snapshot an update answers: the current one if nothing changes, otherwise its successor. */
  ghost predicate Updates(h: Hashes, v: Store, c: Id, createdAt: string, s: Snapshot)
    requires c in v.heads && SnapshotKey(c, v.heads[c]) in v.snapshots
  {
    var now := Current(v, c);
    if s.basis.members == now.basis.members then s == now
    else
      && s.basis.collection == c && s.basis.revision == now.basis.revision + 1
      && s.basis.previous == Some(v.heads[c]) && s.basis.createdAt == createdAt && s.id == h.snapshot(s.basis)
  }

  /** An update is refused only for its request or a stale expectation. */
  lemma UpdateAcceptedIff(h: Hashes, v: Store, c: Id, add: set<Id>, remove: set<Id>, expected: Option<Id>,
      createdAt: string)
    requires h.Sound() && CollectionsInv(h, v)
    ensures MayUpdate(h, v, c, add, remove) ==> c in v.heads
    ensures PlanUpdate(h, v, c, add, remove, expected, createdAt).Ok? <==>
      MayUpdate(h, v, c, add, remove) && (expected.Some? ==> v.heads[c] == expected.value)
  {
    hide MayUpdate, Proposed, HeadSound, Rooted;
    ProposedMeans(h, v, c, add, remove);
    if Proposed(h, v, c, add, remove).Ok? {
      var s := NextSnapshot(h, v, c, Proposed(h, v, c, add, remove).value, createdAt);
      var key := SnapshotKey(c, s.id);
      if key in v.snapshots {
        assert h.snapshot(v.snapshots[key].basis) == h.snapshot(s.basis);
      }
    }
    assert MayUpdate(h, v, c, add, remove) ==> c in v.heads;
  }

  /** An update extends the lineage by one snapshot within the privacy class. */
  lemma UpdateExtendsLineage(h: Hashes, v: Store, c: Id, members: seq<Id>, s: Snapshot,
      snapshots: map<SnapshotKey, Snapshot>)
    requires CollectionsInv(h, v) && c in v.heads && SnapshotKey(c, v.heads[c]) in v.snapshots
    requires s.basis.collection == c && s.basis.revision == Current(v, c).basis.revision + 1
      && s.basis.previous == Some(v.heads[c])
    requires RecordSound(h, c, s) && s.basis.members == members
    requires MembersAllowed(h, v, v.collections[c].basis.privacy, members)
    requires SubSnapshots(v.snapshots, snapshots) && SnapshotKey(c, s.id) in snapshots
      && snapshots[SnapshotKey(c, s.id)] == s
    ensures HeadSound(h, v, snapshots, c, s.id)
    ensures Lineage(h, snapshots, c, s.id, s.basis.revision)
         == Some(Lineage(h, v.snapshots, c, v.heads[c], Current(v, c).basis.revision).value + [s])
  {
    assert HeadSound(h, v, v.snapshots, c, v.heads[c]);
    LineageGrows(h, v.snapshots, snapshots, c, v.heads[c], Current(v, c).basis.revision);
  }

  /** The report says what the update with this plan will do: the same error, or the HEAD it starts from and
      the members, revision and predecessor it ends with; "changed" says whether HEAD will move. */
  ghost predicate Foretells(v: Store, c: Id, plan: Result<seq<Write>, Error>, preview: Result<PreviewReport, Error>) {
    && (preview.Ok? <==> plan.Ok?) && (preview.Err? ==> preview.error == plan.error)
    && (preview.Ok? ==>
      var v' := ApplyAll(v, plan.value);
      && c in v.heads && c in v'.heads && SnapshotKey(c, v'.heads[c]) in v'.snapshots
      && preview.value.head == v.heads[c]
      && (preview.value.changed <==> v'.heads[c] != v.heads[c])
      && Current(v', c).basis.members == preview.value.members
      && Current(v', c).basis.revision == preview.value.nextRevision
      && preview.value.nextRevision == preview.value.revision + (if preview.value.changed then 1 else 0)
      && (preview.value.changed ==> Current(v', c).basis.previous == Some(preview.value.head)))
  }

  /** Preview foretells update: same errors, same members, same revision, and "changed" says whether a
      new snapshot will be written. */
  lemma PreviewPredictsUpdate(h: Hashes, v: Store, c: Id, add: set<Id>, remove: set<Id>, createdAt: string)
    requires h.Sound() && CollectionsInv(h, v)
    ensures Foretells(v, c, PlanUpdate(h, v, c, add, remove, None, createdAt), Preview(h, v, c, add, remove))
  {
    var preview := Preview(h, v, c, add, remove);
    if preview.Ok? && preview.value.changed {
      var s := NextSnapshot(h, v, c, preview.value.members, createdAt);
      NextIsNew(h, v, c, preview.value.members, createdAt);
      var key := SnapshotKey(c, s.id);
      if key in v.snapshots {
        assert h.snapshot(v.snapshots[key].basis) == h.snapshot(s.basis);
        ApplyMove(v, c, s);
      } else {
        ApplyPutMove(v, c, s);
      }
    }
  }

  lemma NextIsNew(h: Hashes, v: Store, c: Id, members: seq<Id>, createdAt: string)
    requires h.Sound() && CollectionsInv(h, v) && c in v.heads && SnapshotKey(c, v.heads[c]) in v.snapshots
    ensures NextSnapshot(h, v, c, members, createdAt).id != v.heads[c]
  {
    var s := NextSnapshot(h, v, c, members, createdAt);
    var now := Current(v, c);
    assert RecordSound(h, c, now) && now.id == v.heads[c];
    assert s.basis.revision != now.basis.revision;
  }

  lemma ApplyMove(v: Store, c: Id, s: Snapshot)
    ensures ApplyAll(v, [] + [MoveHead(c, s.id)]) == v.(heads := v.heads[c := s.id])
  {
    assert [] + [MoveHead(c, s.id)] == [MoveHead(c, s.id)];
    assert ApplyAll(v, [MoveHead(c, s.id)]) == ApplyAll(Apply(v, MoveHead(c, s.id)), []);
  }

  lemma ApplyPutMove(v: Store, c: Id, s: Snapshot)
    requires s.basis.collection == c
    ensures ApplyAll(v, [PutSnapshot(s)] + [MoveHead(c, s.id)])
         == v.(snapshots := v.snapshots[SnapshotKey(c, s.id) := s], heads := v.heads[c := s.id])
  {
    var ws := [PutSnapshot(s)] + [MoveHead(c, s.id)];
    assert ws[1..] == [MoveHead(c, s.id)];
    assert ApplyAll(Apply(v, ws[0]), ws[1..]) == ApplyAll(Apply(Apply(v, ws[0]), ws[1]), []);
  }
}
