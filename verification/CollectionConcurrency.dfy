/** Many writers and crashes over the Collections of one store.  Creation and HEAD movement take
    different lock files; every write is one atomic replace. */
module CollectionConcurrency {
  import opened Common
  import opened Vault
  import opened Collections

  type Pid = nat

  datatype Lock = Creating(collection: Id) | Heading(collection: Id)

  datatype Proc = Holding(lock: Lock) | Writing(lock: Lock, todo: seq<Write>)

  datatype Sys = Sys(store: Store, locks: map<Lock, Pid>, procs: map<Pid, Proc>)

  datatype Request = Request(collection: Id, add: set<Id>, remove: set<Id>, expected: Option<Id>, createdAt: string)

  datatype Action =
    | Acquire(pid: Pid, lock: Lock)
    | BeginCreate(pid: Pid, basis: CollectionBasis)
    | BeginUpdate(pid: Pid, request: Request)
    | Perform(pid: Pid)
    | Finish(pid: Pid)
    | Crash(pid: Pid)
    | StoreObject(data: Bytes)
    | StoreFile(record: FileRecord)

  function PlanRequest(h: Hashes, v: Store, q: Request): Result<seq<Write>, Error> {
    PlanUpdate(h, v, q.collection, q.add, q.remove, q.expected, q.createdAt)
  }

  function Released(s: Sys, p: Pid): Sys
    requires p in s.procs
  {
    s.(locks := s.locks - {s.procs[p].lock}, procs := s.procs - {p})
  }

  function Begun(s: Sys, p: Pid, lock: Lock, plan: Result<seq<Write>, Error>): Sys
    requires p in s.procs
  {
    if plan.Ok? then s.(procs := s.procs[p := Writing(lock, plan.value)]) else Released(s, p)
  }

  ghost predicate Step(h: Hashes, s: Sys, a: Action, s': Sys) {
    match a
    case Acquire(p, lock) =>
      p !in s.procs && lock !in s.locks && s' == s.(locks := s.locks[lock := p], procs := s.procs[p := Holding(lock)])
    case BeginCreate(p, basis) =>
      var lock := Creating(h.collection(basis));
      p in s.procs && s.procs[p] == Holding(lock) && s' == Begun(s, p, lock, PlanCreate(h, s.store, basis))
    case BeginUpdate(p, q) =>
      var lock := Heading(q.collection);
      p in s.procs && s.procs[p] == Holding(lock) && s' == Begun(s, p, lock, PlanRequest(h, s.store, q))
    case Perform(p) =>
      && p in s.procs && s.procs[p].Writing? && s.procs[p].todo != []
      && s' == s.(store := Apply(s.store, s.procs[p].todo[0]),
        procs := s.procs[p := Writing(s.procs[p].lock, s.procs[p].todo[1..])])
    case Finish(p) =>
      p in s.procs && (s.procs[p].Writing? ==> s.procs[p].todo == []) && s' == Released(s, p)
    case Crash(p) =>
      p in s.procs && s' == Released(s, p)
    case StoreObject(data) =>
      s' == s.(store := s.store.(objects := s.store.objects[h.content(data) := data]))
    case StoreFile(r) =>
      // `put_file` writes the object before the record that names it
      && h.file(r.basis) == r.id && r.basis.objectId == r.basis.contentSha && r.basis.objectId in s.store.objects
      && h.content(s.store.objects[r.basis.objectId]) == r.basis.contentSha
        && |s.store.objects[r.basis.objectId]| == r.basis.size
      && s' == s.(store := s.store.(files := s.store.files[r.id := r]))
  }

  // ----- what a plan promises -----

  /** The store just before the plan's HEAD write. */
  function Ready(v: Store, todo: seq<Write>): Store
    requires todo != []
  {
    ApplyAll(v, todo[..|todo| - 1])
  }

  ghost predicate GoodWrite(h: Hashes, v: Store, lock: Lock, w: Write) {
    match w
    case PutDescriptor(d) => lock == Creating(d.id) && h.collection(d.basis) == d.id && d.id !in v.collections
    case PutSnapshot(s) =>
      var key := SnapshotKey(lock.collection, s.id);
      && RecordSound(h, lock.collection, s) && (forall m :: m in s.basis.members ==> m in v.files)
      && Rooted(h, v.snapshots[key := s], key)
    case MoveHead(_, _) => false
  }

  ghost predicate Target(h: Hashes, v: Store, lock: Lock, ready: Store, t: Id) {
    var c := lock.collection;
    && HeadSound(h, ready, ready.snapshots, c, t)
    && match lock
       case Creating(_) => c !in v.heads
       case Heading(_) =>
         && c in v.heads
         && ready.snapshots[SnapshotKey(c, t)].basis.previous == Some(v.heads[c])
  }

  ghost predicate GoodPlan(h: Hashes, v: Store, lock: Lock, todo: seq<Write>) {
    todo != [] ==>
      && todo[|todo| - 1].MoveHead? && todo[|todo| - 1].collection == lock.collection
      && (forall i :: 0 <= i < |todo| - 1 ==> GoodWrite(h, v, lock, todo[i]))
      && (forall i :: 0 < i < |todo| ==> !todo[i].PutDescriptor?)
      && Target(h, v, lock, Ready(v, todo), todo[|todo| - 1].target)
  }

  lemma GrowsReflexive(v: Store)
    ensures Grows(v, v)
  {
  }

  lemma GrowsTransitive(a: Store, b: Store, c: Store)
    requires Grows(a, b) && Grows(b, c)
    ensures Grows(a, c)
  {
  }

  lemma WriteGrowsBoth(v: Store, v': Store, w: Write)
    requires Grows(v, v') && !w.MoveHead?
    ensures Grows(Apply(v, w), Apply(v', w))
  {
  }

  lemma {:induction false} WritesGrowBoth(v: Store, v': Store, ws: seq<Write>)
    requires Grows(v, v') && forall i :: 0 <= i < |ws| ==> !ws[i].MoveHead?
    ensures Grows(ApplyAll(v, ws), ApplyAll(v', ws))
    decreases |ws|
  {
    if ws != [] {
      WriteGrowsBoth(v, v', ws[0]);
      WritesGrowBoth(Apply(v, ws[0]), Apply(v', ws[0]), ws[1..]);
    }
  }

  lemma GoodWriteKind(h: Hashes, v: Store, lock: Lock, w: Write)
    requires GoodWrite(h, v, lock, w)
    ensures !w.MoveHead?
    ensures w.PutDescriptor? ==> lock.collection !in v.collections && w.descriptor.id == lock.collection
  {
  }

  lemma GoodWriteStable(h: Hashes, v: Store, v': Store, lock: Lock, w: Write)
    requires Grows(v, v') && GoodWrite(h, v, lock, w)
    requires w.PutDescriptor? ==> lock.collection !in v'.collections
    ensures GoodWrite(h, v', lock, w)
  {
    hide Rooted, RecordSound;
    if w.PutSnapshot? {
      var key := SnapshotKey(lock.collection, w.snapshot.id);
      RootedGrows(h, v.snapshots[key := w.snapshot], v'.snapshots[key := w.snapshot], key);
    }
  }

  /** A plan survives any growth of the store that leaves its Collection's HEAD and descriptor alone. */
  lemma PlanStable(h: Hashes, v: Store, v': Store, lock: Lock, todo: seq<Write>)
    requires Grows(v, v') && GoodPlan(h, v, lock, todo)
    requires lock.collection in v.heads <==> lock.collection in v'.heads
    requires lock.collection in v.heads ==> v'.heads[lock.collection] == v.heads[lock.collection]
    requires lock.collection in v'.collections ==> lock.collection in v.collections
    ensures GoodPlan(h, v', lock, todo)
  {
    hide GoodWrite;
    if todo != [] {
      var front, t := todo[..|todo| - 1], todo[|todo| - 1].target;
      forall i | 0 <= i < |front| ensures !front[i].MoveHead? && GoodWrite(h, v', lock, todo[i]) {
        assert GoodWrite(h, v, lock, todo[i]);
        GoodWriteKind(h, v, lock, todo[i]);
        GoodWriteStable(h, v, v', lock, todo[i]);
      }
      WritesGrowBoth(v, v', front);
      HeadSoundGrows(h, Ready(v, todo), Ready(v', todo), Ready(v, todo).snapshots, Ready(v', todo).snapshots,
        lock.collection, t);
    }
  }

  /** A descriptor or snapshot write never replaces a different record. */
  lemma GoodWriteGrows(h: Hashes, v: Store, lock: Lock, w: Write)
    requires h.Sound() && CollectionsInv(h, v) && GoodWrite(h, v, lock, w)
    ensures Grows(v, Apply(v, w)) && Apply(v, w).heads == v.heads
    ensures CollectionsInv(h, Apply(v, w))
  {
    hide HeadSound, Readable, Rooted;
    WriteIsNew(h, v, lock, w);
    HeadsKept(h, v, Apply(v, w));
    GrownSnapshots(v, Apply(v, w));
    forall k | k in Apply(v, w).snapshots ensures Rooted(h, Apply(v, w).snapshots, k) {
      if k in v.snapshots { RootedGrows(h, v.snapshots, Apply(v, w).snapshots, k); }
    }
    forall f | f in Apply(v, w).files ensures Readable(h, Apply(v, w), f) {
      SameFilesReadable(h, v, Apply(v, w), f);
    }
  }

  lemma SameFilesReadable(h: Hashes, v: Store, v': Store, f: Id)
    requires v'.files == v.files && v'.objects == v.objects && Readable(h, v, f)
    ensures Readable(h, v', f)
  {
  }

  lemma WriteIsNew(h: Hashes, v: Store, lock: Lock, w: Write)
    requires h.Sound() && CollectionsInv(h, v) && GoodWrite(h, v, lock, w)
    ensures Grows(v, Apply(v, w))
  {
    hide HeadSound, Readable;
    if w.PutSnapshot? {
      var key := SnapshotKey(w.snapshot.basis.collection, w.snapshot.id);
      if key in v.snapshots { assert h.snapshot(v.snapshots[key].basis) == h.snapshot(w.snapshot.basis); }
    }
  }

  lemma HeadsKept(h: Hashes, v: Store, v': Store)
    requires CollectionsInv(h, v) && Grows(v, v') && v'.heads == v.heads
    ensures forall c :: c in v'.heads ==> HeadSound(h, v', v'.snapshots, c, v'.heads[c])
  {
    hide Grows, HeadSound;
    forall c | c in v'.heads ensures HeadSound(h, v', v'.snapshots, c, v'.heads[c]) {
      GrownSnapshots(v, v');
      HeadSoundGrows(h, v, v', v.snapshots, v'.snapshots, c, v.heads[c]);
    }
  }

  lemma GrownSnapshots(v: Store, v': Store)
    requires Grows(v, v')
    ensures SubSnapshots(v.snapshots, v'.snapshots)
  {
  }

  /** HEADs that `v` has stay or move to the next revision. */
  ghost predicate HeadsAdvance(h: Hashes, v: Store, v': Store) {
    forall c :: c in v.heads ==>
      && c in v'.heads && SnapshotKey(c, v.heads[c]) in v.snapshots && SnapshotKey(c, v'.heads[c]) in v'.snapshots
      && (v'.heads[c] == v.heads[c] || Current(v', c).basis.revision > Current(v, c).basis.revision)
      && ChainExtends(h, v, v', c)
  }

  ghost function HeadChain(h: Hashes, v: Store, c: Id): Option<seq<Snapshot>>
    requires c in v.heads && SnapshotKey(c, v.heads[c]) in v.snapshots
  {
    var n := Current(v, c).basis.revision;
    if n < 0 then None else Lineage(h, v.snapshots, c, v.heads[c], n)
  }

  ghost predicate ChainExtends(h: Hashes, v: Store, v': Store, c: Id)
    requires c in v.heads && SnapshotKey(c, v.heads[c]) in v.snapshots
    requires c in v'.heads && SnapshotKey(c, v'.heads[c]) in v'.snapshots
  {
    var a, b := HeadChain(h, v, c), HeadChain(h, v', c);
    a.Some? && b.Some? && IsPrefix(a.value, b.value)
  }

  lemma SameHeadsAdvance(h: Hashes, v: Store, v': Store)
    requires CollectionsInv(h, v) && Grows(v, v') && v'.heads == v.heads
    ensures HeadsAdvance(h, v, v')
  {
    forall c | c in v.heads
      ensures SnapshotKey(c, v.heads[c]) in v.snapshots && SnapshotKey(c, v'.heads[c]) in v'.snapshots
        && ChainExtends(h, v, v', c)
    {
      assert HeadSound(h, v, v.snapshots, c, v.heads[c]);
      LineageGrows(h, v.snapshots, v'.snapshots, c, v.heads[c], Current(v, c).basis.revision);
    }
  }

  /** The HEAD write itself. */
  lemma MoveIsSound(h: Hashes, v: Store, lock: Lock, w: Write)
    requires CollectionsInv(h, v) && w.MoveHead? && w.collection == lock.collection && Target(h, v, lock, v, w.target)
    ensures Grows(v, Apply(v, w)) && CollectionsInv(h, Apply(v, w)) && HeadsAdvance(h, v, Apply(v, w))
    ensures forall c :: c != lock.collection ==>
      (c in v.heads <==> c in Apply(v, w).heads) && (c in v.heads ==> Apply(v, w).heads[c] == v.heads[c])
  {
    hide HeadSound, RecordSound, HeadChain;
    var v', c := Apply(v, w), lock.collection;
    assert Grows(v, v');
    forall d | d in v'.heads ensures HeadSound(h, v', v'.snapshots, d, v'.heads[d]) {
      HeadSoundGrows(h, v, v', v.snapshots, v'.snapshots, d, v'.heads[d]);
    }
    forall d | d in v.heads
      ensures SnapshotKey(d, v.heads[d]) in v.snapshots && SnapshotKey(d, v'.heads[d]) in v'.snapshots
        && ChainExtends(h, v, v', d)
      ensures v'.heads[d] == v.heads[d] || Current(v', d).basis.revision > Current(v, d).basis.revision
    {
      HeadHasChain(h, v, d, v.heads[d]);
      if d == c {
        MoveExtends(h, v, c, w.target);
      } else {
        SameChain(h, v, v', d);
      }
    }
  }

  lemma HeadHasChain(h: Hashes, v: Store, c: Id, t: Id)
    requires HeadSound(h, v, v.snapshots, c, t) && c in v.heads && v.heads[c] == t
    ensures SnapshotKey(c, t) in v.snapshots && HeadChain(h, v, c).Some?
  {
  }

  lemma SameChain(h: Hashes, v: Store, v': Store, c: Id)
    requires c in v.heads && SnapshotKey(c, v.heads[c]) in v.snapshots && HeadChain(h, v, c).Some?
    requires c in v'.heads && v'.heads[c] == v.heads[c] && v'.snapshots == v.snapshots
    ensures ChainExtends(h, v, v', c)
  {
  }

  lemma MoveExtends(h: Hashes, v: Store, c: Id, t: Id)
    requires c in v.heads && HeadSound(h, v, v.snapshots, c, v.heads[c]) && HeadSound(h, v, v.snapshots, c, t)
    requires v.snapshots[SnapshotKey(c, t)].basis.previous == Some(v.heads[c])
    ensures
      var v' := v.(heads := v.heads[c := t]);
      && SnapshotKey(c, v.heads[c]) in v.snapshots && SnapshotKey(c, t) in v'.snapshots
      && Current(v', c).basis.revision > Current(v, c).basis.revision && ChainExtends(h, v, v', c)
  {
    AdvanceByOne(h, v, c, t);
    var n := Current(v, c).basis.revision;
    var a := Lineage(h, v.snapshots, c, v.heads[c], n).value;
    assert a + [v.snapshots[SnapshotKey(c, t)]] == a + [v.snapshots[SnapshotKey(c, t)]];
    assert IsPrefix(a, a + [v.snapshots[SnapshotKey(c, t)]]);
  }

  lemma AdvanceByOne(h: Hashes, v: Store, c: Id, t: Id)
    requires c in v.heads && HeadSound(h, v, v.snapshots, c, v.heads[c]) && HeadSound(h, v, v.snapshots, c, t)
    requires v.snapshots[SnapshotKey(c, t)].basis.previous == Some(v.heads[c])
    ensures v.snapshots[SnapshotKey(c, t)].basis.revision == Current(v, c).basis.revision + 1
    ensures
      var n := Current(v, c).basis.revision;
      Lineage(h, v.snapshots, c, t, n + 1) == Some(Lineage(h, v.snapshots, c, v.heads[c], n).value
        + [v.snapshots[SnapshotKey(c, t)]])
  {
    var k := v.snapshots[SnapshotKey(c, t)].basis.revision;
    assert Lineage(h, v.snapshots, c, t, k).Some?;
    assert k > 0 && Lineage(h, v.snapshots, c, v.heads[c], k - 1).Some?;
  }

  /** One atomic write of a good plan. */
  lemma PerformGood(h: Hashes, v: Store, lock: Lock, todo: seq<Write>)
    requires h.Sound() && CollectionsInv(h, v) && GoodPlan(h, v, lock, todo) && todo != []
    ensures var v' := Apply(v, todo[0]); Grows(v, v') && CollectionsInv(h, v') && HeadsAdvance(h, v, v')
    ensures GoodPlan(h, Apply(v, todo[0]), lock, todo[1..])
    ensures var v' := Apply(v, todo[0]);
      forall c :: c != lock.collection || |todo| > 1 ==>
        (c in v.heads <==> c in v'.heads) && (c in v.heads ==> v'.heads[c] == v.heads[c])
    ensures forall c :: c != lock.collection && c in Apply(v, todo[0]).collections ==> c in v.collections
  {
    hide CollectionsInv, HeadsAdvance, Target, Grows, Rooted;
    var v' := Apply(v, todo[0]);
    if |todo| == 1 {
      assert Ready(v, todo) == v;
      MoveIsSound(h, v, lock, todo[0]);
    } else {
      assert GoodWrite(h, v, lock, todo[0]);
      GoodWriteGrows(h, v, lock, todo[0]);
      SameHeadsAdvance(h, v, v');
      RestIsGood(h, v, lock, todo);
    }
  }

  lemma RestIsGood(h: Hashes, v: Store, lock: Lock, todo: seq<Write>)
    requires GoodPlan(h, v, lock, todo) && |todo| > 1 && Grows(v, Apply(v, todo[0]))
      && Apply(v, todo[0]).heads == v.heads
    ensures GoodPlan(h, Apply(v, todo[0]), lock, todo[1..])
  {
    hide HeadSound, RecordSound, GoodWrite, Apply;
    var v', rest := Apply(v, todo[0]), todo[1..];
    assert GoodWrite(h, v, lock, todo[0]);
    GoodWriteKind(h, v, lock, todo[0]);
    assert todo[..|todo| - 1][1..] == rest[..|rest| - 1];
    assert Ready(v', rest) == Ready(v, todo);
    forall i | 0 <= i < |rest| - 1 ensures GoodWrite(h, v', lock, rest[i]) {
      assert rest[i] == todo[i + 1];
      assert GoodWrite(h, v, lock, todo[i + 1]);
      GoodWriteStable(h, v, v', lock, todo[i + 1]);
    }
  }

  // ----- plans are good -----

  lemma UpdatePlansWell(h: Hashes, v: Store, q: Request)
    requires h.Sound() && CollectionsInv(h, v) && PlanRequest(h, v, q).Ok?
    ensures GoodPlan(h, v, Heading(q.collection), PlanRequest(h, v, q).value)
    ensures
      var todo := PlanRequest(h, v, q).value;
      todo != [] && q.expected.Some? ==> q.collection in v.heads && v.heads[q.collection] == q.expected.value
  {
    var todo := PlanRequest(h, v, q).value;
    var c := q.collection;
    if todo != [] {
      var members := Proposed(h, v, c, q.add, q.remove).value;
      var s := NextSnapshot(h, v, c, members, q.createdAt);
      ProposedAllowed(h, v, q);
      UpdateReady(h, v, c, s, todo);
      UpdateExtendsLineage(h, v, c, members, s, Ready(v, todo).snapshots);
      LiftTarget(h, v, c, s.id, Ready(v, todo));
    }
  }

  lemma ProposedAllowed(h: Hashes, v: Store, q: Request)
    requires PlanRequest(h, v, q).Ok?
    ensures
      var members := Proposed(h, v, q.collection, q.add, q.remove).value;
      && StrictlyAscending(members) && HasCollection(h, v, q.collection)
      && MembersAllowed(h, v, v.collections[q.collection].basis.privacy, members)
      && forall m :: m in members ==> m in v.files
  {
    var members := Proposed(h, v, q.collection, q.add, q.remove).value;
    NoObjection(h, v, v.collections[q.collection].basis.privacy, members);
  }

  lemma UpdateReady(h: Hashes, v: Store, c: Id, s: Snapshot, todo: seq<Write>)
    requires s.basis.collection == c
    requires todo == (if SnapshotKey(c, s.id) in v.snapshots then [] else [PutSnapshot(s)]) + [MoveHead(c, s.id)]
    requires SnapshotKey(c, s.id) in v.snapshots ==> v.snapshots[SnapshotKey(c, s.id)] == s
    ensures Ready(v, todo) == v.(snapshots := v.snapshots[SnapshotKey(c, s.id) := s])
    ensures forall i :: 0 <= i < |todo| - 1 ==> todo[i] == PutSnapshot(s)
  {
    if SnapshotKey(c, s.id) in v.snapshots {
      assert todo[..|todo| - 1] == [];
      assert v.snapshots[SnapshotKey(c, s.id) := s] == v.snapshots;
    } else {
      assert todo[..|todo| - 1] == [PutSnapshot(s)];
      assert ApplyAll(v, [PutSnapshot(s)]) == ApplyAll(Apply(v, PutSnapshot(s)), []);
    }
  }

  /** The lineage and privacy facts do not depend on the other maps of the store. */
  lemma LiftTarget(h: Hashes, v: Store, c: Id, t: Id, ready: Store)
    requires HeadSound(h, v, ready.snapshots, c, t)
    requires ready.files == v.files && c in ready.collections && ready.collections[c] == v.collections[c]
    ensures HeadSound(h, ready, ready.snapshots, c, t)
  {
    var n := ready.snapshots[SnapshotKey(c, t)].basis.revision;
    var chain := Lineage(h, ready.snapshots, c, t, n).value;
    forall i | 0 <= i < |chain| ensures MembersAllowed(h, ready, ready.collections[c].basis.privacy,
      chain[i].basis.members) {
      assert MembersAllowed(h, v, v.collections[c].basis.privacy, chain[i].basis.members);
    }
  }

  lemma CreatePlansWell(h: Hashes, v: Store, basis: CollectionBasis)
    requires h.Sound() && CollectionsInv(h, v) && PlanCreate(h, v, basis).Ok?
    ensures GoodPlan(h, v, Creating(h.collection(basis)), PlanCreate(h, v, basis).value)
  {
    var todo := PlanCreate(h, v, basis).value;
    if todo != [] {
      var d := Descriptor(h.collection(basis), basis);
      var first := FirstSnapshot(h, d);
      HeadlessWithoutDescriptor(h, v, d.id);
      CreateReady(h, v, d, first, todo);
      var ready := Ready(v, todo);
      assert Lineage(h, ready.snapshots, d.id, first.id, 0) == Some([first]);
      assert LineageAllowed(h, ready, d.basis.privacy, [first]);
    }
  }

  lemma HeadlessWithoutDescriptor(h: Hashes, v: Store, c: Id)
    requires CollectionsInv(h, v) && c !in v.collections
    ensures c !in v.heads
  {
    assert c in v.heads ==> HeadSound(h, v, v.snapshots, c, v.heads[c]);
  }

  lemma CreateReady(h: Hashes, v: Store, d: Descriptor, first: Snapshot, todo: seq<Write>)
    requires first.basis.collection == d.id
    requires todo == [PutDescriptor(d)]
      + (if SnapshotKey(d.id, first.id) in v.snapshots then [] else [PutSnapshot(first)]) + [MoveHead(d.id, first.id)]
    requires SnapshotKey(d.id, first.id) in v.snapshots ==> v.snapshots[SnapshotKey(d.id, first.id)] == first
    ensures Ready(v, todo) == v.(collections := v.collections[d.id := d],
      snapshots := v.snapshots[SnapshotKey(d.id, first.id) := first])
    ensures forall i :: 0 <= i < |todo| - 1 ==> todo[i] == PutDescriptor(d) || todo[i] == PutSnapshot(first)
  {
    var v1 := Apply(v, PutDescriptor(d));
    if SnapshotKey(d.id, first.id) in v.snapshots {
      assert todo[..|todo| - 1] == [PutDescriptor(d)];
      assert ApplyAll(v, [PutDescriptor(d)]) == ApplyAll(v1, []);
      assert v.snapshots[SnapshotKey(d.id, first.id) := first] == v.snapshots;
    } else {
      assert todo[..|todo| - 1] == [PutDescriptor(d), PutSnapshot(first)];
      assert [PutDescriptor(d), PutSnapshot(first)][1..] == [PutSnapshot(first)];
      assert ApplyAll(v1, [PutSnapshot(first)]) == ApplyAll(Apply(v1, PutSnapshot(first)), []);
    }
  }

  /** A finished plan leaves a sound, grown store. */
  lemma {:induction false} PlanKeepsInv(h: Hashes, v: Store, lock: Lock, todo: seq<Write>)
    requires h.Sound() && CollectionsInv(h, v) && GoodPlan(h, v, lock, todo)
    ensures CollectionsInv(h, ApplyAll(v, todo)) && Grows(v, ApplyAll(v, todo))
    decreases |todo|
  {
    hide CollectionsInv, GoodPlan, Grows, Apply, HeadsAdvance;
    if todo == [] {
      GrowsReflexive(v);
    } else {
      PerformGood(h, v, lock, todo);
      PlanKeepsInv(h, Apply(v, todo[0]), lock, todo[1..]);
      GrowsTransitive(v, Apply(v, todo[0]), ApplyAll(v, todo));
    }
  }

  // ----- the system -----

  ghost predicate Init(h: Hashes, s: Sys) {
    s.store == EmptyStore && s.locks == map[] && s.procs == map[]
  }

  ghost predicate LocksHeld(s: Sys) {
    && (forall p :: p in s.procs ==> s.procs[p].lock in s.locks && s.locks[s.procs[p].lock] == p)
    && (forall k :: k in s.locks ==> s.locks[k] in s.procs && s.procs[s.locks[k]].lock == k)
  }

  ghost predicate PlansGood(h: Hashes, s: Sys) {
    forall p :: p in s.procs && s.procs[p].Writing? ==> GoodPlan(h, s.store, s.procs[p].lock, s.procs[p].todo)
  }

  ghost predicate Inv(h: Hashes, s: Sys) {
    CollectionsInv(h, s.store) && LocksHeld(s) && PlansGood(h, s)
  }

  lemma QuietStep(h: Hashes, s: Sys, a: Action, s': Sys)
    requires Inv(h, s) && Step(h, s, a, s') && (a.Acquire? || a.Finish? || a.Crash?)
    ensures Inv(h, s') && Grows(s.store, s'.store) && HeadsAdvance(h, s.store, s'.store)
  {
    hide CollectionsInv, GoodPlan, HeadsAdvance, Grows;
    GrowsReflexive(s.store);
    SameHeadsAdvance(h, s.store, s.store);
  }

  lemma BeginStep(h: Hashes, s: Sys, a: Action, s': Sys)
    requires h.Sound() && Inv(h, s) && Step(h, s, a, s') && (a.BeginCreate? || a.BeginUpdate?)
    ensures Inv(h, s') && Grows(s.store, s'.store) && HeadsAdvance(h, s.store, s'.store)
  {
    hide CollectionsInv, GoodPlan, HeadsAdvance, PlanCreate, PlanRequest;
    GrowsReflexive(s.store);
    SameHeadsAdvance(h, s.store, s.store);
    if a.BeginCreate? && PlanCreate(h, s.store, a.basis).Ok? { CreatePlansWell(h, s.store, a.basis); }
    if a.BeginUpdate? && PlanRequest(h, s.store, a.request).Ok? { UpdatePlansWell(h, s.store, a.request); }
  }

  /** Creation and update of one Collection never have writes outstanding together. */
  lemma OneWriter(h: Hashes, s: Sys, p: Pid, q: Pid)
    requires Inv(h, s) && p in s.procs && q in s.procs && p != q
    requires s.procs[p].Writing? && s.procs[p].todo != [] && s.procs[q].Writing? && s.procs[q].todo != []
    ensures s.procs[p].lock.collection != s.procs[q].lock.collection
  {
    hide CollectionsInv, HeadSound;
    assert s.procs[p].lock != s.procs[q].lock;
    assert GoodPlan(h, s.store, s.procs[p].lock, s.procs[p].todo);
    assert GoodPlan(h, s.store, s.procs[q].lock, s.procs[q].todo);
  }

  lemma PerformStep(h: Hashes, s: Sys, p: Pid, s': Sys)
    requires h.Sound() && Inv(h, s) && Step(h, s, Perform(p), s')
    ensures Inv(h, s') && Grows(s.store, s'.store) && HeadsAdvance(h, s.store, s'.store)
  {
    hide CollectionsInv, GoodPlan, HeadsAdvance, Apply, Grows;
    PerformGood(h, s.store, s.procs[p].lock, s.procs[p].todo);
    forall q | q in s'.procs && s'.procs[q].Writing? ensures GoodPlan(h, s'.store, s'.procs[q].lock, s'.procs[q].todo) {
      if q != p {
        if s.procs[q].todo != [] {
          OneWriter(h, s, p, q);
          PlanStable(h, s.store, s'.store, s.procs[q].lock, s.procs[q].todo);
        } else {
          EmptyPlan(h, s'.store, s.procs[q].lock);
        }
      }
    }
  }

  lemma EmptyPlan(h: Hashes, v: Store, lock: Lock)
    ensures GoodPlan(h, v, lock, [])
  {
  }

  lemma FileStep(h: Hashes, s: Sys, a: Action, s': Sys)
    requires h.Sound() && Inv(h, s) && Step(h, s, a, s') && (a.StoreObject? || a.StoreFile?)
    ensures Inv(h, s') && Grows(s.store, s'.store) && HeadsAdvance(h, s.store, s'.store)
  {
    hide GoodPlan, HeadsAdvance, Grows, HeadSound, StoreSound;
    var v, v' := s.store, s'.store;
    FileStepGrows(h, s, a, s');
    HeadsKept(h, v, v');
    SameHeadsAdvance(h, v, v');
    FileStepReadable(h, s, a, s');
    forall q | q in s'.procs && s'.procs[q].Writing? ensures GoodPlan(h, v', s'.procs[q].lock, s'.procs[q].todo) {
      PlanStable(h, v, v', s.procs[q].lock, s.procs[q].todo);
    }
  }

  /** Files are content addressed: storing one again never changes a record. */
  lemma FileStepGrows(h: Hashes, s: Sys, a: Action, s': Sys)
    requires h.Sound() && StoreSound(h, s.store) && Step(h, s, a, s') && (a.StoreObject? || a.StoreFile?)
    ensures Grows(s.store, s'.store) && s'.store.heads == s.store.heads
  {
    if a.StoreFile? && a.record.id in s.store.files {
      assert Readable(h, s.store, a.record.id);
    }
  }

  lemma FileStepReadable(h: Hashes, s: Sys, a: Action, s': Sys)
    requires h.Sound() && CollectionsInv(h, s.store) && Step(h, s, a, s') && (a.StoreObject? || a.StoreFile?)
    requires forall c :: c in s'.store.heads ==> HeadSound(h, s'.store, s'.store.snapshots, c, s'.store.heads[c])
    ensures CollectionsInv(h, s'.store)
  {
    hide HeadSound, RecordSound;
    forall f | f in s'.store.files ensures Readable(h, s'.store, f) {
      if f in s.store.files { assert Readable(h, s.store, f); }
    }
  }

  /** Every step keeps the invariant; records are only added and HEADs only advance. */
  lemma StepKeeps(h: Hashes, s: Sys, a: Action, s': Sys)
    requires h.Sound() && Inv(h, s) && Step(h, s, a, s')
    ensures Inv(h, s') && Grows(s.store, s'.store) && HeadsAdvance(h, s.store, s'.store)
  {
    hide Inv, Step, HeadsAdvance, Grows;
    match a
    case Acquire(_, _) => QuietStep(h, s, a, s');
    case BeginCreate(_, _) => BeginStep(h, s, a, s');
    case BeginUpdate(_, _) => BeginStep(h, s, a, s');
    case Perform(p) => PerformStep(h, s, p, s');
    case Finish(_) => QuietStep(h, s, a, s');
    case Crash(_) => QuietStep(h, s, a, s');
    case StoreObject(_) => FileStep(h, s, a, s');
    case StoreFile(_) => FileStep(h, s, a, s');
  }

  /** Seen from the interaction log, whatever the Collections do is growth of a sound store. */
  lemma StepIsStoreGrowth(h: Hashes, s: Sys, a: Action, s': Sys)
    requires h.Sound() && Inv(h, s) && Step(h, s, a, s')
    ensures Grows(s.store, s'.store) && StoreSound(h, s'.store)
  {
    hide Step, HeadsAdvance, Grows;
    StepKeeps(h, s, a, s');
  }

  ghost predicate Behaviour(h: Hashes, trace: seq<Sys>, acts: seq<Action>) {
    && |trace| == |acts| + 1 && Init(h, trace[0])
    && forall i :: 0 <= i < |acts| ==> Step(h, trace[i], acts[i], trace[i + 1])
  }

  lemma {:induction false} Reachable(h: Hashes, trace: seq<Sys>, acts: seq<Action>, i: nat)
    requires h.Sound() && Behaviour(h, trace, acts) && i < |trace|
    ensures Inv(h, trace[i])
  {
    hide Step;
    if i > 0 {
      Reachable(h, trace, acts, i - 1);
      StepKeeps(h, trace[i - 1], acts[i - 1], trace[i]);
    }
  }

  lemma PrefixTransitive<T>(a: seq<T>, b: seq<T>, c: seq<T>)
    requires IsPrefix(a, b) && IsPrefix(b, c)
    ensures IsPrefix(a, c)
  {
    assert c[..|a|] == c[..|b|][..|a|];
  }

  lemma HeadsAdvanceTransitive(h: Hashes, a: Store, b: Store, c: Store)
    requires HeadsAdvance(h, a, b) && HeadsAdvance(h, b, c) && Grows(a, b) && Grows(b, c)
    ensures HeadsAdvance(h, a, c)
  {
    hide HeadChain;
    forall k | k in a.heads
      ensures SnapshotKey(k, a.heads[k]) in a.snapshots && k in c.heads && SnapshotKey(k, c.heads[k]) in c.snapshots
        && ChainExtends(h, a, c, k)
    {
      assert ChainExtends(h, a, b, k) && ChainExtends(h, b, c, k);
      PrefixTransitive(HeadChain(h, a, k).value, HeadChain(h, b, k).value, HeadChain(h, c, k).value);
    }
    forall k | k in a.heads
      ensures c.heads[k] == a.heads[k] || Current(c, k).basis.revision > Current(a, k).basis.revision
    {
      if b.heads[k] == a.heads[k] { assert Current(b, k) == Current(a, k); }
      if c.heads[k] == b.heads[k] && b.heads[k] != a.heads[k] { assert Current(c, k) == Current(b, k); }
    }
  }

  /** Over every interleaving, with crashes anywhere: a HEAD's lineage is only extended, its revision
      only grows, and it never comes back to a snapshot it has left (no ABA). */
  lemma {:induction false} HeadsOnlyAdvance(h: Hashes, trace: seq<Sys>, acts: seq<Action>, i: nat, j: nat)
    requires h.Sound() && Behaviour(h, trace, acts) && i <= j < |trace|
    ensures HeadsAdvance(h, trace[i].store, trace[j].store) && Grows(trace[i].store, trace[j].store)
    decreases j - i
  {
    hide Step, HeadsAdvance, CollectionsInv, Grows;
    Reachable(h, trace, acts, i);
    if i == j {
      GrowsReflexive(trace[i].store);
      SameHeadsAdvance(h, trace[i].store, trace[i].store);
    } else {
      HeadsOnlyAdvance(h, trace, acts, i, j - 1);
      Reachable(h, trace, acts, j - 1);
      StepKeeps(h, trace[j - 1], acts[j - 1], trace[j]);
      HeadsAdvanceTransitive(h, trace[i].store, trace[j - 1].store, trace[j].store);
      GrowsTransitive(trace[i].store, trace[j - 1].store, trace[j].store);
    }
  }

  /** If a HEAD names the same snapshot at two moments it named it throughout. */
  lemma NoAba(h: Hashes, trace: seq<Sys>, acts: seq<Action>, i: nat, j: nat, k: nat, c: Id)
    requires h.Sound() && Behaviour(h, trace, acts) && i <= j <= k < |trace|
    requires c in trace[i].store.heads && c in trace[k].store.heads
      && trace[i].store.heads[c] == trace[k].store.heads[c]
    ensures c in trace[j].store.heads && trace[j].store.heads[c] == trace[i].store.heads[c]
  {
    hide Behaviour, ChainExtends;
    HeadsOnlyAdvance(h, trace, acts, i, j);
    HeadsOnlyAdvance(h, trace, acts, j, k);
    HeadsOnlyAdvance(h, trace, acts, i, k);
  }

  /** Step `i` is a HEAD write whose snapshot names `x` as its predecessor. */
  ghost predicate Supersedes(s: Sys, a: Action, c: Id, x: Id) {
    && a.Perform? && a.pid in s.procs && s.procs[a.pid].Writing? && s.procs[a.pid].lock == Heading(c)
    && |s.procs[a.pid].todo| == 1 && s.procs[a.pid].todo[0].MoveHead?
    && SnapshotKey(c, s.procs[a.pid].todo[0].target) in s.store.snapshots
    && s.store.snapshots[SnapshotKey(c, s.procs[a.pid].todo[0].target)].basis.previous == Some(x)
  }

  lemma SupersedesLeaves(h: Hashes, s: Sys, a: Action, s': Sys, c: Id, x: Id)
    requires h.Sound() && Inv(h, s) && Step(h, s, a, s') && Supersedes(s, a, c, x)
    ensures c in s.store.heads && s.store.heads[c] == x && c in s'.store.heads && s'.store.heads[c] != x
  {
    hide CollectionsInv, RecordSound;
    var todo := s.procs[a.pid].todo;
    assert GoodPlan(h, s.store, Heading(c), todo);
    assert Ready(s.store, todo) == s.store;
    assert HeadSound(h, s.store, s.store.snapshots, c, todo[0].target);
    HeadIsSound(h, s.store, c);
    AdvanceByOne(h, s.store, c, todo[0].target);
  }

  lemma HeadIsSound(h: Hashes, v: Store, c: Id)
    requires CollectionsInv(h, v) && c in v.heads
    ensures HeadSound(h, v, v.snapshots, c, v.heads[c])
  {
  }

  /** A HEAD is superseded at most once, so of all membership-changing updates that carry the same
      expected HEAD at most one ever takes effect. */
  lemma SupersededOnce(h: Hashes, trace: seq<Sys>, acts: seq<Action>, i: nat, j: nat, c: Id, x: Id)
    requires h.Sound() && Behaviour(h, trace, acts) && i < j < |acts|
    requires Supersedes(trace[i], acts[i], c, x)
    ensures !Supersedes(trace[j], acts[j], c, x)
  {
    hide Inv, HeadsAdvance, Supersedes;
    Reachable(h, trace, acts, i);
    Reachable(h, trace, acts, j);
    SupersedesLeaves(h, trace[i], acts[i], trace[i + 1], c, x);
    if Supersedes(trace[j], acts[j], c, x) {
      SupersedesLeaves(h, trace[j], acts[j], trace[j + 1], c, x);
      NoAba(h, trace, acts, i, i + 1, j, c);
      assert false;
    }
  }

  /** An accepted update that carries an expected HEAD plans a snapshot that supersedes exactly it. */
  lemma ExpectedIsSuperseded(h: Hashes, v: Store, q: Request)
    requires h.Sound() && CollectionsInv(h, v) && q.expected.Some? && PlanRequest(h, v, q).Ok?
      && PlanRequest(h, v, q).value != []
    ensures
      var todo := PlanRequest(h, v, q).value;
      var key := SnapshotKey(q.collection, todo[|todo| - 1].target);
      && todo[|todo| - 1].MoveHead? && todo[|todo| - 1].collection == q.collection
      && key in Ready(v, todo).snapshots && Ready(v, todo).snapshots[key].basis.previous == q.expected
  {
    hide PlanRequest, Ready;
    UpdatePlansWell(h, v, q);
  }

  /** Every reachable HEAD has consecutive revisions down to 0, and holds only Files no stricter than
      its Collection. */
  lemma ReachableLineage(h: Hashes, trace: seq<Sys>, acts: seq<Action>, i: nat, c: Id)
    requires h.Sound() && Behaviour(h, trace, acts) && i < |trace| && c in trace[i].store.heads
    ensures
      var v := trace[i].store;
      && SnapshotKey(c, v.heads[c]) in v.snapshots && c in v.collections && HeadChain(h, v, c).Some?
      && Consecutive(HeadChain(h, v, c).value)
      && |HeadChain(h, v, c).value| == Current(v, c).basis.revision + 1
      && LineageAllowed(h, v, v.collections[c].basis.privacy, HeadChain(h, v, c).value)
  {
    Reachable(h, trace, acts, i);
    var v := trace[i].store;
    HeadIsSound(h, v, c);
    LineageConsecutive(h, v.snapshots, c, v.heads[c], Current(v, c).basis.revision);
  }

  // ----- a crash while creating -----

  /** The process still has writes outstanding to the Collection. */
  ghost predicate AtWork(s: Sys, c: Id, p: Pid) {
    p in s.procs && s.procs[p].Writing? && s.procs[p].lock.collection == c && s.procs[p].todo != []
  }

  /** The descriptor of a Collection whose creation died before its HEAD. */
  ghost predicate Headless(s: Sys, c: Id) {
    c in s.store.collections && c !in s.store.heads && forall p :: !AtWork(s, c, p)
  }

  lemma HeadlessStep(h: Hashes, s: Sys, a: Action, s': Sys, c: Id)
    requires h.Sound() && Inv(h, s) && Step(h, s, a, s') && Headless(s, c)
    ensures Headless(s', c)
  {
    hide CollectionsInv, GoodPlan, HeadSound;
    if a.BeginCreate? && h.collection(a.basis) == c { assert PlanCreate(h, s.store, a.basis).Err?; }
    if a.BeginUpdate? && a.request.collection == c { assert PlanRequest(h, s.store, a.request).Err?; }
    if a.Perform? {
      assert !AtWork(s, c, a.pid);
      PerformGood(h, s.store, s.procs[a.pid].lock, s.procs[a.pid].todo);
    }
    forall q ensures !AtWork(s', c, q) { assert !AtWork(s, c, q); }
  }

  lemma WriteKeepsAtWork(h: Hashes, s: Sys, p: Pid, s': Sys, c: Id)
    requires Inv(h, s) && Step(h, s, Perform(p), s') && !Headless(s, c)
    requires c in s'.store.collections && c !in s'.store.heads
    ensures exists q :: AtWork(s', c, q)
  {
    hide CollectionsInv, Target, GoodWrite;
    var lock, todo := s.procs[p].lock, s.procs[p].todo;
    assert GoodPlan(h, s.store, lock, todo);
    if todo[0].PutDescriptor? && todo[0].descriptor.id == c {
      DescriptorOfLock(h, s.store, lock, todo);
      assert AtWork(s', c, p);
    } else {
      var q :| AtWork(s, c, q);
      assert q == p ==> todo[|todo| - 1].MoveHead? && todo[|todo| - 1].collection == c;
      assert AtWork(s', c, q);
    }
  }

  /** Only a crash beheads: any other step that leaves a Collection without HEAD leaves its creator at work. */
  lemma OnlyCrashesBehead(h: Hashes, s: Sys, a: Action, s': Sys, c: Id)
    requires h.Sound() && Inv(h, s) && Step(h, s, a, s') && !a.Crash?
    requires !Headless(s, c)
    ensures !Headless(s', c)
  {
    hide Inv, PlanCreate, PlanRequest, Apply;
    if c in s'.store.collections && c !in s'.store.heads {
      if a.Perform? {
        WriteKeepsAtWork(h, s, a.pid, s', c);
      } else {
        var p :| AtWork(s, c, p);
        assert AtWork(s', c, p);
      }
    }
  }

  lemma DescriptorOfLock(h: Hashes, v: Store, lock: Lock, todo: seq<Write>)
    requires GoodPlan(h, v, lock, todo) && todo != [] && todo[0].PutDescriptor?
    ensures todo[0].descriptor.id == lock.collection && |todo| > 1
  {
    hide Target, HeadSound;
    assert |todo| > 1 ==> GoodWrite(h, v, lock, todo[0]);
  }

  /** A write beheads its Collection by dying exactly when it is a creation whose descriptor is written:
      the first write still due is no longer the descriptor. */
  lemma CrashBeheads(h: Hashes, s: Sys, p: Pid, s': Sys)
    requires Inv(h, s) && Step(h, s, Crash(p), s') && s.procs[p].Writing? && s.procs[p].todo != []
    ensures
      var lock := s.procs[p].lock;
      Headless(s', lock.collection) <==> lock.Creating? && !s.procs[p].todo[0].PutDescriptor?
  {
    hide CollectionsInv, GoodWrite, Lineage, LineageAllowed;
    var lock, todo := s.procs[p].lock, s.procs[p].todo;
    assert GoodPlan(h, s.store, lock, todo);
    if todo[0].PutDescriptor? {
      assert todo[0] != todo[|todo| - 1] && GoodWrite(h, s.store, lock, todo[0]);
      GoodWriteKind(h, s.store, lock, todo[0]);
    } else {
      CollectionsKept(s.store, todo[..|todo| - 1]);
    }
    forall q ensures !AtWork(s', lock.collection, q) {
      if AtWork(s', lock.collection, q) { OneWriter(h, s, p, q); }
    }
  }

  lemma {:induction false} CollectionsKept(v: Store, ws: seq<Write>)
    requires forall i :: 0 <= i < |ws| ==> !ws[i].PutDescriptor?
    ensures ApplyAll(v, ws).collections == v.collections
    decreases |ws|
  {
    if ws != [] { CollectionsKept(Apply(v, ws[0]), ws[1..]); }
  }

  /** Without crashes a Collection nobody is creating always has its HEAD. */
  lemma {:induction false} CrashFreeHasHead(h: Hashes, trace: seq<Sys>, acts: seq<Action>, i: nat, c: Id)
    requires h.Sound() && Behaviour(h, trace, acts) && i < |trace|
    requires forall k :: 0 <= k < |acts| ==> !acts[k].Crash?
    ensures !Headless(trace[i], c)
  {
    hide Step, Headless;
    if i == 0 {
      NothingHeadless(h, trace[0], c);
    } else {
      CrashFreeHasHead(h, trace, acts, i - 1, c);
      Reachable(h, trace, acts, i - 1);
      OnlyCrashesBehead(h, trace[i - 1], acts[i - 1], trace[i], c);
    }
  }

  lemma NothingHeadless(h: Hashes, s: Sys, c: Id)
    requires Init(h, s)
    ensures !Headless(s, c)
  {
  }

  /** Nothing ever repairs it: no later creation or update gives the Collection a HEAD. */
  lemma {:induction false} HeadlessForever(h: Hashes, trace: seq<Sys>, acts: seq<Action>, i: nat, j: nat, c: Id)
    requires h.Sound() && Behaviour(h, trace, acts) && i <= j < |trace| && Headless(trace[i], c)
    ensures Headless(trace[j], c)
    decreases j - i
  {
    hide Step, Headless;
    if i < j {
      HeadlessForever(h, trace, acts, i, j - 1, c);
      Reachable(h, trace, acts, j - 1);
      HeadlessStep(h, trace[j - 1], acts[j - 1], trace[j], c);
    }
  }
}
