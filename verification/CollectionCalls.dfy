/** Calls of `update_collection` followed from the moment they plan to the moment they move HEAD, over
    any interleaving; and a creation that dies half way. */
module CollectionCalls {
  import opened Common
  import opened Vault
  import opened Collections
  import opened CollectionConcurrency
  import CS = ControlStore

  // ----- one call over time -----

  /** The call planned at step `i` still has its process writing at moment `k`. */
  ghost predicate InFlight(trace: seq<Sys>, acts: seq<Action>, i: nat, k: nat) {
    && i < k < |trace| && i < |acts| && acts[i].BeginUpdate?
    && forall m :: i < m <= k ==> acts[i].pid in trace[m].procs && trace[m].procs[acts[i].pid].Writing?
  }

  /** What the call planned. */
  function Planned(h: Hashes, s: Sys, a: Action): seq<Write>
    requires a.BeginUpdate?
  {
    if PlanRequest(h, s.store, a.request).Ok? then PlanRequest(h, s.store, a.request).value else []
  }

  lemma StepOfCall(h: Hashes, s: Sys, a: Action, s': Sys, p: Pid)
    requires Step(h, s, a, s') && p in s.procs && s.procs[p].Writing?
    requires p in s'.procs && s'.procs[p].Writing?
    ensures s'.procs[p].lock == s.procs[p].lock
    ensures s'.procs[p].todo == s.procs[p].todo || (s.procs[p].todo != [] && s'.procs[p].todo == s.procs[p].todo[1..])
  {
  }

  /** Until its process is done, what is left to write is the end of what was planned. */
  lemma {:induction false} PlanLeft(h: Hashes, trace: seq<Sys>, acts: seq<Action>, i: nat, k: nat) returns (d: nat)
    requires Behaviour(h, trace, acts) && InFlight(trace, acts, i, k)
    ensures d <= |Planned(h, trace[i], acts[i])|
    ensures trace[k].procs[acts[i].pid]
         == Writing(Heading(acts[i].request.collection), Planned(h, trace[i], acts[i])[d..])
    decreases k
  {
    hide PlanRequest;
    var p := acts[i].pid;
    assert Step(h, trace[k - 1], acts[k - 1], trace[k]);
    if k == i + 1 {
      d := 0;
      assert Planned(h, trace[i], acts[i])[0..] == Planned(h, trace[i], acts[i]);
    } else {
      var e := PlanLeft(h, trace, acts, i, k - 1);
      StepOfCall(h, trace[k - 1], acts[k - 1], trace[k], p);
      d := if trace[k].procs[p].todo == trace[k - 1].procs[p].todo then e else e + 1;
    }
  }

  /** The call planned at step `i` moves HEAD at step `k`. */
  ghost predicate TakesEffect(trace: seq<Sys>, acts: seq<Action>, i: nat, k: nat) {
    && InFlight(trace, acts, i, k) && k < |acts|
    && acts[k] == Perform(acts[i].pid) && |trace[k].procs[acts[i].pid].todo| == 1
  }

  lemma UpdatePlanShape(h: Hashes, v: Store, q: Request)
    requires PlanRequest(h, v, q).Ok? && PlanRequest(h, v, q).value != []
    ensures q.collection in v.heads && SnapshotKey(q.collection, v.heads[q.collection]) in v.snapshots
    ensures Proposed(h, v, q.collection, q.add, q.remove).Ok?
    ensures
      var todo := PlanRequest(h, v, q).value;
      var next := NextSnapshot(h, v, q.collection, Proposed(h, v, q.collection, q.add, q.remove).value, q.createdAt);
      && todo[|todo| - 1] == MoveHead(q.collection, next.id)
      && (q.expected.Some? ==> next.basis.previous == q.expected)
  {
  }

  lemma LastLeft<T>(s: seq<T>, d: nat)
    requires d <= |s| && |s[d..]| == 1
    ensures s != [] && s[d..][0] == s[|s| - 1]
  {
  }

  lemma SameSnapshot(h: Hashes, a: Snapshot, b: SnapshotBasis)
    requires h.Sound() && h.snapshot(a.basis) == h.snapshot(b)
    ensures a.basis == b
  {
  }

  lemma TargetStored(h: Hashes, v: Store, c: Id, t: Id)
    requires CollectionsInv(h, v) && GoodPlan(h, v, Heading(c), [MoveHead(c, t)])
    ensures SnapshotKey(c, t) in v.snapshots && h.snapshot(v.snapshots[SnapshotKey(c, t)].basis) == t
  {
    hide Lineage, LineageAllowed, Rooted, StoreSound;
    assert Ready(v, [MoveHead(c, t)]) == v;
    assert HeadSound(h, v, v.snapshots, c, t);
  }

  /** A call that takes effect supersedes exactly the HEAD it expected. */
  lemma EffectSupersedes(h: Hashes, trace: seq<Sys>, acts: seq<Action>, i: nat, k: nat)
    requires h.Sound() && Behaviour(h, trace, acts) && TakesEffect(trace, acts, i, k) && acts[i].request.expected.Some?
    ensures Supersedes(trace[k], acts[k], acts[i].request.collection, acts[i].request.expected.value)
  {
    hide PlanRequest, CollectionsInv, Proposed, NextSnapshot, GoodPlan;
    var q, v := acts[i].request, trace[i].store;
    var d := PlanLeft(h, trace, acts, i, k);
    var todo := Planned(h, trace[i], acts[i]);
    LastLeft(todo, d);
    UpdatePlanShape(h, v, q);
    var next := NextSnapshot(h, v, q.collection, Proposed(h, v, q.collection, q.add, q.remove).value, q.createdAt);
    NextNamed(h, v, q.collection, Proposed(h, v, q.collection, q.add, q.remove).value, q.createdAt);
    assert todo[d..] == [MoveHead(q.collection, next.id)];
    Reachable(h, trace, acts, k);
    assert GoodPlan(h, trace[k].store, Heading(q.collection), todo[d..]);
    TargetStored(h, trace[k].store, q.collection, next.id);
    SameSnapshot(h, trace[k].store.snapshots[SnapshotKey(q.collection, next.id)], next.basis);
  }

  lemma NextNamed(h: Hashes, v: Store, c: Id, members: seq<Id>, createdAt: string)
    requires c in v.heads && SnapshotKey(c, v.heads[c]) in v.snapshots
    ensures var next := NextSnapshot(h, v, c, members, createdAt); next.id == h.snapshot(next.basis)
  {
  }

  /** A process makes one call at a time: the call that is in flight for it when it moves HEAD is unique. */
  lemma OneCallInFlight(h: Hashes, trace: seq<Sys>, acts: seq<Action>, i: nat, j: nat, k: nat)
    requires Behaviour(h, trace, acts) && InFlight(trace, acts, i, k) && InFlight(trace, acts, j, k)
    requires acts[i].pid == acts[j].pid
    ensures i == j
  {
    hide Step;
    BeginsIdle(h, trace[i], acts[i], trace[i + 1]);
    BeginsIdle(h, trace[j], acts[j], trace[j + 1]);
  }

  lemma BeginsIdle(h: Hashes, s: Sys, a: Action, s': Sys)
    requires Step(h, s, a, s') && a.BeginUpdate?
    ensures a.pid in s.procs && !s.procs[a.pid].Writing?
  {
  }

  /** Over every interleaving, with crashes anywhere, of all the calls that carry one expected HEAD at most one
      ever moves it. */
  lemma OneTakesEffect(h: Hashes, trace: seq<Sys>, acts: seq<Action>, i: nat, k: nat, j: nat, l: nat)
    requires h.Sound() && Behaviour(h, trace, acts)
    requires TakesEffect(trace, acts, i, k) && TakesEffect(trace, acts, j, l)
    requires acts[i].request.collection == acts[j].request.collection
    requires acts[i].request.expected.Some? && acts[i].request.expected == acts[j].request.expected
    ensures i == j
  {
    hide Behaviour, Supersedes;
    EffectSupersedes(h, trace, acts, i, k);
    EffectSupersedes(h, trace, acts, j, l);
    var c, x := acts[i].request.collection, acts[i].request.expected.value;
    if k < l {
      SupersededOnce(h, trace, acts, k, l, c, x);
    } else if l < k {
      SupersededOnce(h, trace, acts, l, k, c, x);
    } else {
      OneCallInFlight(h, trace, acts, i, j, k);
    }
  }

  // ----- a creation that dies half way -----

  const example := CollectionBasis("c", "t", Public)

  /** One crash, and the store holds a Collection that never gets a HEAD and that `verify` refuses. */
  lemma CrashedCreation(h: Hashes) returns (trace: seq<Sys>, acts: seq<Action>)
    requires h.Sound()
    ensures Behaviour(h, trace, acts) && |acts| == 4
    ensures forall i :: 0 <= i < |acts| ==> (acts[i].Crash? <==> i == 3)
    ensures Headless(trace[4], h.collection(example)) && trace[4].locks == map[] && trace[4].procs == map[]
    ensures !CS.CollectionVerifies(h, trace[4].store, h.collection(example))
  {
    hide CollectionsInv, CS.CollectionVerifies;
    var c := h.collection(example);
    var lock, d := Creating(c), Descriptor(c, example);
    var todo := PlanCreate(h, EmptyStore, example).value;
    var v := EmptyStore.(collections := map[c := d]);
    var s0 := Sys(EmptyStore, map[], map[]);
    var s1 := Sys(EmptyStore, map[lock := 0], map[0 := Holding(lock)]);
    var s2 := Sys(EmptyStore, map[lock := 0], map[0 := Writing(lock, todo)]);
    var s3 := Sys(v, map[lock := 0], map[0 := Writing(lock, todo[1..])]);
    var s4 := Sys(v, map[], map[]);
    trace, acts := [s0, s1, s2, s3, s4], [Acquire(0, lock), BeginCreate(0, example), Perform(0), Crash(0)];
    assert todo[0] == PutDescriptor(d);
    assert s2.procs == s1.procs[0 := Writing(lock, todo)];
    assert Apply(EmptyStore, todo[0]) == v && s3.procs == s2.procs[0 := Writing(lock, todo[1..])];
    assert s3.locks - {lock} == map[] && s3.procs - {0} == map[];
    assert Step(h, s0, acts[0], s1) && Step(h, s1, acts[1], s2) && Step(h, s2, acts[2], s3) && Step(h, s3, acts[3], s4);
    Reachable(h, trace, acts, 4);
    CS.ReachableVerifies(h, v, c);
  }
}
