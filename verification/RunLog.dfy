/** Runs, hash-linked events and HEADs (`storage/interaction_store.py`): the records, what makes
    them valid, and the history a HEAD denotes. */
module RunLog {
  import opened Common
  import opened Vault
  import LineageDag
  import Sorting

  datatype Kind = Question | Response | Evidence | Receipt | ModelState {
    /** Only question, response and evidence events occupy a lattice cell. */
    predicate InLattice() { Question? || Response? || Evidence? }
  }

  datatype Epistemic = Observed | Derived | Unresolved

  datatype Temporal = Current | Historical | Recovery

  datatype EventBasis = EventBasis(
    run: Id, sequence: nat, previous: Option<Id>, parents: seq<Id>, kind: Kind,
    epistemic: Option<Epistemic>, temporal: Option<Temporal>, occurredAt: string,
    files: seq<Id>, refs: seq<string>, payload: string)

  datatype Event = Event(id: Id, basis: EventBasis)

  datatype CollectionRef = CollectionRef(collection: Id, snapshot: Id)

  datatype RunBasis = RunBasis(question: string, createdAt: string, files: seq<Id>, collection: Option<CollectionRef>)

  datatype Run = Run(id: Id, basis: RunBasis)

  datatype Head = Head(event: Option<Id>, sequence: int)

  const EmptyHead := Head(None, -1)

  datatype Log = Log(runs: map<Id, Run>, events: map<Id, Event>, heads: map<Id, Head>)

  const EmptyLog := Log(map[], map[], map[])

  /** The fingerprint inventory binds the run record and every event record. */
  datatype Inventory = Inventory(run: Id, runSha: Id, eventIds: seq<Id>, eventShas: seq<Id>, files: seq<Id>,
      collection: Option<CollectionRef>)

  datatype RecordSet = RecordSet(privacy: Privacy, run: Run, events: seq<Event>)

  /** Identity functions, and the encoded size of a record set. */
  datatype RunHashes = RunHashes(
    store: Hashes, run: RunBasis -> Id, event: EventBasis -> Id, runRecord: Run -> Id,
    eventRecord: Event -> Id, inventory: Inventory -> Id, encodedSize: RecordSet -> nat) {
    ghost predicate Sound() {
      && store.Sound() && Injective(run) && Injective(event) && Injective(runRecord)
      && Injective(eventRecord) && Injective(inventory)
    }
  }

  /** `_validate_event_semantics`, for a record of the right shape. */
  predicate EventValid(h: RunHashes, v: Store, e: Event) {
    var b := e.basis;
    && StrictlyAscending(b.parents)
    && StrictlyAscending(b.files)
    && (forall i :: 0 <= i < |b.files| ==> HasFile(h.store, v, b.files[i]))
    && RolesValid(b)
    && h.event(b) == e.id
  }

  predicate RolesValid(b: EventBasis) {
    if b.kind.InLattice() then
      && b.epistemic.Some? && b.temporal.Some?
      && (b.epistemic == Some(Derived) ==> b.parents != [] || b.files != [] || b.refs != [])
    else
      b.epistemic.None? && b.temporal.None?
  }

  /** `_validate_run_semantics` and the identity check of `get_run`. */
  predicate RunValid(h: RunHashes, v: Store, r: Run) {
    && h.run(r.basis) == r.id
    && StrictlyAscending(r.basis.files)
    && (forall i :: 0 <= i < |r.basis.files| ==> HasFile(h.store, v, r.basis.files[i]))
    && (r.basis.collection.Some? ==>
          HasSnapshot(h.store, v, r.basis.collection.value.collection, r.basis.collection.value.snapshot))
  }

  /** `get_run` answers. */
  predicate HasRun(h: RunHashes, v: Store, log: Log, r: Id) {
    r in log.runs && log.runs[r].id == r && RunValid(h, v, log.runs[r])
  }

  /** `get_event` answers. */
  predicate HasEvent(h: RunHashes, v: Store, events: map<Id, Event>, e: Id) {
    e in events && events[e].id == e && EventValid(h, v, events[e])
  }

  /** `_read_head` accepts the stored HEAD. */
  predicate HeadShape(head: Head) {
    if head.event.None? then head.sequence == -1 else head.sequence >= 0
  }

  /** The `n` events that end at `cursor`, oldest first: sequence numbers count down to zero and
      each event names its predecessor. */
  function Back(h: RunHashes, v: Store, events: map<Id, Event>, run: Id, cursor: Option<Id>, n: nat): Option<seq<Event>>
    decreases n
  {
    if cursor.None? then (if n == 0 then Some([]) else None)
    else if n == 0 || !HasEvent(h, v, events, cursor.value) then None
    else
      var e := events[cursor.value];
      if e.basis.run != run || e.basis.sequence != n - 1 then None
      else
        match Back(h, v, events, run, e.basis.previous, n - 1)
        case None => None
        case Some(older) => Some(older + [e])
  }

  /** The history a HEAD denotes (`_list_events_from_head`). */
  function AtHead(h: RunHashes, v: Store, events: map<Id, Event>, run: Id, head: Head): Option<seq<Event>> {
    if HeadShape(head) then Back(h, v, events, run, head.event, head.sequence + 1) else None
  }

  /** `list_events`, when the run has a HEAD. */
  function History(h: RunHashes, v: Store, log: Log, run: Id): Option<seq<Event>> {
    if run in log.heads then AtHead(h, v, log.events, run, log.heads[run]) else None
  }

  ghost predicate SubLog(a: map<Id, Event>, b: map<Id, Event>) {
    forall k :: k in a ==> k in b && b[k] == a[k]
  }

  /** The identity of the event before position `i`; at `|es|`, the HEAD event. */
  function IdBefore(es: seq<Event>, i: nat): Option<Id>
    requires i <= |es|
  {
    if i == 0 then None else Some(es[i - 1].id)
  }

  /** Position `i` of a history holds sequence number `i`, and its previous link names position `i - 1`. */
  ghost predicate Chained(run: Id, es: seq<Event>) {
    forall i :: 0 <= i < |es| ==>
      es[i].basis.run == run && es[i].basis.sequence == i && es[i].basis.previous == IdBefore(es, i)
  }

  lemma ChainedExtends(run: Id, es: seq<Event>, e: Event)
    requires Chained(run, es) && e.basis.run == run && e.basis.sequence == |es|
      && e.basis.previous == IdBefore(es, |es|)
    ensures Chained(run, es + [e])
  {
    forall i | 0 <= i < |es + [e]| ensures (es + [e])[i].basis.previous == IdBefore(es + [e], i) {
      assert IdBefore(es + [e], i) == IdBefore(es, i);
    }
  }

  lemma ChainedPrefix(run: Id, es: seq<Event>, n: nat)
    requires Chained(run, es) && n <= |es|
    ensures Chained(run, es[..n])
  {
    forall i | 0 <= i < n ensures es[..n][i].basis.previous == IdBefore(es[..n], i) {
      assert IdBefore(es[..n], i) == IdBefore(es, i);
    }
  }

  lemma {:induction false} BackChained(h: RunHashes, v: Store, events: map<Id, Event>, run: Id, cursor: Option<Id>,
      n: nat)
    requires Back(h, v, events, run, cursor, n).Some?
    ensures
      var es := Back(h, v, events, run, cursor, n).value;
      && |es| == n && Chained(run, es)
      && cursor == IdBefore(es, n)
      && forall i :: 0 <= i < n ==> HasEvent(h, v, events, es[i].id) && events[es[i].id] == es[i]
    decreases n
  {
    if cursor.Some? {
      var e := events[cursor.value];
      BackChained(h, v, events, run, e.basis.previous, n - 1);
      ChainedExtends(run, Back(h, v, events, run, e.basis.previous, n - 1).value, e);
    }
  }

  /** Conversely any stored chain is what the backward walk returns. */
  lemma {:induction false} ChainedBack(h: RunHashes, v: Store, events: map<Id, Event>, run: Id, es: seq<Event>)
    requires Chained(run, es)
    requires forall i :: 0 <= i < |es| ==> HasEvent(h, v, events, es[i].id) && events[es[i].id] == es[i]
    ensures Back(h, v, events, run, IdBefore(es, |es|), |es|) == Some(es)
  {
    hide HasEvent, Chained;
    if es == [] {
      assert Back(h, v, events, run, None, 0) == Some([]);
    } else {
      hide Back;
      var n := |es| - 1;
      var older, e := es[..n], es[n];
      ChainedPrefix(run, es, n);
      ChainedLast(run, es);
      ChainedBack(h, v, events, run, older);
      BackExtends(h, v, events, run, older, e);
      assert es == older + [e];
    }
  }

  lemma ChainedLast(run: Id, es: seq<Event>)
    requires Chained(run, es) && es != []
    ensures
      var n := |es| - 1;
      es[n].basis.run == run && es[n].basis.sequence == n && es[n].basis.previous == IdBefore(es[..n], n)
  {
  }

  lemma BackExtends(h: RunHashes, v: Store, events: map<Id, Event>, run: Id, older: seq<Event>, e: Event)
    requires HasEvent(h, v, events, e.id) && events[e.id] == e && e.basis.run == run && e.basis.sequence == |older|
    requires Back(h, v, events, run, e.basis.previous, |older|) == Some(older)
    ensures Back(h, v, events, run, Some(e.id), |older| + 1) == Some(older + [e])
  {
    hide EventValid;
  }

  lemma EventValidGrows(h: RunHashes, v: Store, v': Store, e: Event)
    requires Grows(v, v') && EventValid(h, v, e)
    ensures EventValid(h, v', e)
  {
  }

  lemma RunValidGrows(h: RunHashes, v: Store, v': Store, r: Run)
    requires Grows(v, v') && RunValid(h, v, r)
    ensures RunValid(h, v', r)
  {
  }

  /** New records never change a history. */
  lemma {:induction false} BackGrows(h: RunHashes, v: Store, v': Store, events: map<Id, Event>, events': map<Id, Event>,
      run: Id, cursor: Option<Id>, n: nat)
    requires Grows(v, v') && SubLog(events, events')
    requires Back(h, v, events, run, cursor, n).Some?
    ensures Back(h, v', events', run, cursor, n) == Back(h, v, events, run, cursor, n)
    decreases n
  {
    if cursor.Some? {
      var e := events[cursor.value];
      EventValidGrows(h, v, v', e);
      BackGrows(h, v, v', events, events', run, e.basis.previous, n - 1);
    }
  }

  function DagNodes(es: seq<Event>): seq<LineageDag.Node> {
    seq(|es|, i requires 0 <= i < |es| => LineageDag.Node(es[i].id, es[i].basis.parents))
  }

  /** Every lineage parent is an earlier event of the same history. */
  ghost predicate ParentsLinked(es: seq<Event>) {
    forall i, p :: 0 <= i < |es| && p in es[i].basis.parents ==> exists j :: 0 <= j < i && es[j].id == p
  }

  ghost predicate BoundObjectsReadable(h: RunHashes, v: Store, r: Run, es: seq<Event>) {
    && (forall f :: f in r.basis.files ==> Readable(h.store, v, f))
    && (r.basis.collection.Some? ==>
          var c := r.basis.collection.value;
          HasSnapshot(h.store, v, c.collection, c.snapshot) &&
          forall f :: f in v.snapshots[SnapshotKey(c.collection, c.snapshot)].basis.members ==> Readable(h.store, v, f))
    && (forall i, f :: 0 <= i < |es| && f in es[i].basis.files ==> Readable(h.store, v, f))
  }

  /** What `_verify_snapshot` establishes of a captured run. */
  ghost predicate Verifies(h: RunHashes, v: Store, r: Run, es: seq<Event>) {
    var g := LineageDag.ById(DagNodes(es));
    && LineageDag.Closed(g) && !LineageDag.Cyclic(g)
    && ParentsPrecede(es)
    && BoundObjectsReadable(h, v, r, es)
  }

  /** `verify_run` succeeds on an unlocked run. */
  ghost predicate VerifyRunAccepts(h: RunHashes, v: Store, log: Log, run: Id) {
    && HasRun(h, v, log, run)
    && History(h, v, log, run).Some?
    && Verifies(h, v, log.runs[run], History(h, v, log, run).value)
  }

  lemma ByIdOfHistory(es: seq<Event>)
    requires UniqueIds(es)
    ensures forall x :: x in LineageDag.ById(DagNodes(es)) <==> exists i :: 0 <= i < |es| && es[i].id == x
    ensures forall i :: 0 <= i < |es| ==> LineageDag.ById(DagNodes(es))[es[i].id] == es[i].basis.parents
  {
    ByIdOfHistoryValues(es);
    var ns := DagNodes(es);
    forall x | x in LineageDag.ById(ns) ensures exists i :: 0 <= i < |es| && es[i].id == x {
      var i :| 0 <= i < |ns| && ns[i].id == x;
      assert es[i].id == x;
    }
    forall i | 0 <= i < |es| ensures es[i].id in LineageDag.ById(ns) {
      assert ns[i].id == es[i].id;
    }
  }

  lemma {:induction false} ByIdOfHistoryValues(es: seq<Event>)
    requires UniqueIds(es)
    ensures forall i :: 0 <= i < |es| ==>
      es[i].id in LineageDag.ById(DagNodes(es)) && LineageDag.ById(DagNodes(es))[es[i].id] == es[i].basis.parents
  {
    if es != [] {
      var n := |es| - 1;
      ByIdOfHistoryValues(es[..n]);
      assert DagNodes(es)[..n] == DagNodes(es[..n]);
      forall i | 0 <= i < |es|
        ensures es[i].id in LineageDag.ById(DagNodes(es))
          && LineageDag.ById(DagNodes(es))[es[i].id] == es[i].basis.parents
      {
        if i < n { assert es[..n][i] == es[i]; }
      }
    }
  }

  ghost predicate UniqueIds(es: seq<Event>) {
    forall i, j :: 0 <= i < |es| && 0 <= j < |es| && es[i].id == es[j].id ==> i == j
  }

  /** Every parent found in the history has a smaller sequence number. */
  ghost predicate ParentsPrecede(es: seq<Event>) {
    forall i, p, j :: 0 <= i < |es| && p in es[i].basis.parents && 0 <= j < |es| && es[j].id == p ==>
      es[j].basis.sequence < es[i].basis.sequence
  }

  /** Stored events with one identity are one event. */
  ghost predicate StoredChain(h: RunHashes, v: Store, events: map<Id, Event>, run: Id, es: seq<Event>) {
    && Chained(run, es)
    && forall i :: 0 <= i < |es| ==> HasEvent(h, v, events, es[i].id) && events[es[i].id] == es[i]
  }

  ghost function IdsOf(es: seq<Event>): seq<Id> {
    seq(|es|, i requires 0 <= i < |es| => es[i].id)
  }

  lemma HistoryIdsDistinct(h: RunHashes, v: Store, events: map<Id, Event>, run: Id, es: seq<Event>)
    requires StoredChain(h, v, events, run, es)
    ensures UniqueIds(es)
  {
    forall i, j | 0 <= i < |es| && 0 <= j < |es| && es[i].id == es[j].id ensures i == j {
      assert es[i] == es[j];
    }
  }

  /** On a stored history the graph search and the sequence test together say one thing: every
      parent is an earlier event of the same history. */
  lemma VerifiesIffLinked(h: RunHashes, v: Store, events: map<Id, Event>, r: Run, es: seq<Event>)
    requires StoredChain(h, v, events, r.id, es)
    ensures Verifies(h, v, r, es) <==> ParentsLinked(es) && BoundObjectsReadable(h, v, r, es)
  {
    HistoryIdsDistinct(h, v, events, r.id, es);
    hide LineageDag.Cyclic;
    if ParentsLinked(es) {
      LinkedIsAcyclic(es);
      LinkedIsOrdered(r.id, es);
    }
    if Verifies(h, v, r, es) {
      VerifiedIsLinked(es);
    }
  }

  lemma LinkedIsOrdered(run: Id, es: seq<Event>)
    requires Chained(run, es) && ParentsLinked(es)
    requires UniqueIds(es)
    ensures ParentsPrecede(es)
  {
    forall i, p, j | 0 <= i < |es| && p in es[i].basis.parents && 0 <= j < |es| && es[j].id == p
      ensures es[j].basis.sequence < es[i].basis.sequence
    {
      var k :| 0 <= k < i && es[k].id == p;
      assert k == j;
    }
  }

  lemma HistoryIdsFinish(es: seq<Event>)
    requires ParentsLinked(es) && UniqueIds(es)
    ensures LineageDag.Finished(LineageDag.ById(DagNodes(es)), IdsOf(es))
    ensures forall x :: x in LineageDag.ById(DagNodes(es)) ==> x in IdsOf(es)
  {
    ByIdOfHistory(es);
    var g, ids := LineageDag.ById(DagNodes(es)), IdsOf(es);
    forall i, y | 0 <= i < |ids| && y in g[ids[i]] ensures y in ids[..i] {
      assert y in es[i].basis.parents;
      var j :| 0 <= j < i && es[j].id == y;
      assert ids[..i][j] == y;
    }
    forall x | x in g ensures x in ids {
      var i :| 0 <= i < |es| && es[i].id == x;
      assert ids[i] == x;
    }
  }

  /** Parents before children by sequence leaves nothing for the graph search to reject. */
  lemma LinkedIsAcyclic(es: seq<Event>)
    requires ParentsLinked(es) && UniqueIds(es)
    ensures LineageDag.Closed(LineageDag.ById(DagNodes(es))) && !LineageDag.Cyclic(LineageDag.ById(DagNodes(es)))
  {
    HistoryIdsFinish(es);
    LineageDag.AllFinishedIsAcyclic(LineageDag.ById(DagNodes(es)), IdsOf(es));
  }

  lemma VerifiedIsLinked(es: seq<Event>)
    requires UniqueIds(es) && ParentsPrecede(es) && LineageDag.Closed(LineageDag.ById(DagNodes(es)))
    requires forall i :: 0 <= i < |es| ==> es[i].basis.sequence == i
    ensures ParentsLinked(es)
  {
    ByIdOfHistory(es);
    var g := LineageDag.ById(DagNodes(es));
    forall i, p | 0 <= i < |es| && p in es[i].basis.parents ensures exists j :: 0 <= j < i && es[j].id == p {
      assert g[es[i].id] == es[i].basis.parents;
      assert p in g;
      var j :| 0 <= j < |es| && es[j].id == p;
      assert es[j].basis.sequence < es[i].basis.sequence;
    }
  }
}
