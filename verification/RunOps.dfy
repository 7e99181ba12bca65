/** What each writer does once it holds the run lock: the atomic file writes it will perform, in
    order, or the error it raises (`create_run`, `append_event`, `import_record_set`). */
module RunOps {
  import opened Common
  import opened Vault
  import opened RunLog
  import Sorting

  /** One atomic replace. */
  datatype Write = PutRun(run: Run) | PutEvent(event: Event) | PutHead(target: Id, head: Head)

  function Apply(log: Log, w: Write): Log {
    match w
    case PutRun(r) => log.(runs := log.runs[r.id := r])
    case PutEvent(e) => log.(events := log.events[e.id := e])
    case PutHead(r, head) => log.(heads := log.heads[r := head])
  }

  function ApplyAll(log: Log, ws: seq<Write>): Log
    decreases |ws|
  {
    if ws == [] then log else ApplyAll(Apply(log, ws[0]), ws[1..])
  }

  datatype Error =
    | UnknownRun | UnknownFile | UnknownSnapshot | DuplicateRefs | InvalidRun | InvalidEvent | RolesMismatch
    | MissingHead | MissingLineage | UnknownParent | ForeignParent | LateParent | Collision
    | OrphanedEvents | TooLarge | ForeignEvent | BrokenSequence | BrokenLink | LineageRejected | PrivacyMismatch
    | Truncates | Rewrites

  function IdKey(): Id -> seq<int> {
    (x: Id) => [x]
  }

  /** `_sorted_refs`: duplicates are refused, the rest is put in ascending order. */
  function SortedRefs(ids: seq<Id>): (r: Result<seq<Id>, Error>)
  {
    if Distinct(ids) then Ok(Sorting.SortBy(ids, IdKey())) else Err(DuplicateRefs)
  }

  lemma SortedRefsAscend(ids: seq<Id>)
    requires SortedRefs(ids).Ok?
    ensures StrictlyAscending(SortedRefs(ids).value)
    ensures multiset(SortedRefs(ids).value) == multiset(ids)
  {
    Sorting.SortSorts(ids, IdKey());
    var s := SortedRefs(ids).value;
    assert Sorting.KeysDistinct(ids, IdKey()) by {
      forall i, j | 0 <= i < j < |ids| ensures IdKey()(ids[i]) != IdKey()(ids[j]) {
        assert IdKey()(ids[i])[0] == ids[i] && IdKey()(ids[j])[0] == ids[j];
      }
    }
    Sorting.KeysDistinctByMultiset(ids, s, IdKey());
    forall i, j | 0 <= i < j < |s| ensures s[i] < s[j] {
      assert Sorting.LexLeq([s[i]], [s[j]]) && IdKey()(s[i]) != IdKey()(s[j]);
    }
  }

  datatype AppendRequest = AppendRequest(
    run: Id, kind: Kind, epistemic: Option<Epistemic>, temporal: Option<Temporal>, occurredAt: string,
    payload: string, parents: Option<seq<Id>>, files: seq<Id>, refs: seq<string>)

  /** The parents an append records: the HEAD event unless the caller names others. */
  function ChosenParents(q: AppendRequest, head: Head): Result<seq<Id>, Error> {
    match q.parents
    case None => Ok(if head.event.None? then [] else [head.event.value])
    case Some(ps) => SortedRefs(ps)
  }

  /** The first objection `append_event` raises against a list of parents. */
  function ParentObjection(h: RunHashes, v: Store, log: Log, run: Id, sequence: nat, parents: seq<Id>): Option<Error> {
    if parents == [] then None
    else if !HasEvent(h, v, log.events, parents[0]) then Some(UnknownParent)
    else if log.events[parents[0]].basis.run != run then Some(ForeignParent)
    else if log.events[parents[0]].basis.sequence >= sequence then Some(LateParent)
    else ParentObjection(h, v, log, run, sequence, parents[1..])
  }

  /** The event an accepted append writes. */
  function PlanEvent(h: RunHashes, v: Store, log: Log, q: AppendRequest): Result<Event, Error> {
    if !HasRun(h, v, log, q.run) then Err(UnknownRun)
    else
      var files :- SortedRefs(q.files);
      if exists i :: 0 <= i < |files| && !HasFile(h.store, v, files[i]) then Err(UnknownFile)
      else if q.kind.InLattice() != q.epistemic.Some? || q.kind.InLattice() != q.temporal.Some? then Err(RolesMismatch)
      else if q.run !in log.heads || !HeadShape(log.heads[q.run]) then Err(MissingHead)
      else
        var head := log.heads[q.run];
        var parents :- ChosenParents(q, head);
        if q.kind.InLattice() && q.epistemic == Some(Derived) && parents == [] && files == [] && q.refs == []
          then Err(MissingLineage)
        else
          match ParentObjection(h, v, log, q.run, head.sequence + 1, parents)
          case Some(error) => Err(error)
          case None =>
            var basis := EventBasis(q.run, head.sequence + 1, head.event, parents, q.kind, q.epistemic, q.temporal,
                                    q.occurredAt, files, q.refs, q.payload);
            var e := Event(h.event(basis), basis);
            if e.id in log.events && log.events[e.id] != e then Err(Collision) else Ok(e)
  }

  /** Event first, then HEAD; an event file already present is left alone. */
  function PlanAppend(h: RunHashes, v: Store, log: Log, q: AppendRequest): Result<seq<Write>, Error> {
    var e :- PlanEvent(h, v, log, q);
    Ok((if e.id in log.events then [] else [PutEvent(e)]) + [PutHead(q.run, Head(Some(e.id), e.basis.sequence))])
  }

  /** `create_run` for validated, canonically ordered fields. */
  function PlanCreate(h: RunHashes, v: Store, log: Log, basis: RunBasis): Result<seq<Write>, Error> {
    var r := Run(h.run(basis), basis);
    if !RunValid(h, v, r) then Err(InvalidRun)
    else if r.id in log.runs then
      if log.runs[r.id] != r then Err(Collision)
      else if r.id !in log.heads then
        if exists e :: e in log.events && log.events[e].basis.run == r.id then Err(OrphanedEvents)
        else Ok([PutHead(r.id, EmptyHead)])
      else if !HeadShape(log.heads[r.id]) then Err(MissingHead)
      else Ok([])
    else Ok([PutRun(r), PutHead(r.id, EmptyHead)])
  }

  const MAX_IMPORTED_EVENTS := 100_000
  const MAX_RECORD_SET_BYTES := 16 * 1024 * 1024

  function SequenceKey(): Event -> seq<int> {
    (e: Event) => [e.basis.sequence]
  }

  /** The imported events in sequence order. */
  function ImportOrder(rs: RecordSet): seq<Event> {
    Sorting.SortBy(rs.events, SequenceKey())
  }

  /** The classes `_strictest_privacy` collects; `None` when a referenced record cannot be read. */
  function FileClasses(h: RunHashes, v: Store, files: seq<Id>): Option<seq<Privacy>> {
    if files == [] then Some([])
    else if !HasFile(h.store, v, files[0]) then None
    else
      match FileClasses(h, v, files[1..])
      case None => None
      case Some(rest) => Some([v.files[files[0]].basis.privacy] + rest)
  }

  function Flatten(ss: seq<seq<Id>>): seq<Id> {
    if ss == [] then [] else ss[0] + Flatten(ss[1..])
  }

  function EventFiles(es: seq<Event>): seq<Id> {
    Flatten(seq(|es|, i requires 0 <= i < |es| => es[i].basis.files))
  }

  function CollectionFiles(h: RunHashes, v: Store, r: Run): seq<Id> {
    if r.basis.collection.None? then []
    else
      var key := SnapshotKey(r.basis.collection.value.collection, r.basis.collection.value.snapshot);
      if key in v.snapshots then v.snapshots[key].basis.members else []
  }

  function Stricter(a: Privacy, b: Privacy): Privacy {
    if b.Rank() > a.Rank() then b else a
  }

  function Strictest(cs: seq<Privacy>): (p: Privacy)
    ensures forall c :: c in cs ==> c.Rank() <= p.Rank()
    ensures p == Public || p in cs
  {
    if cs == [] then Public else Stricter(Strictest(cs[1..]), cs[0])
  }

  /** `_strictest_privacy` over the run, its Collection snapshot and its events. */
  function RunPrivacy(h: RunHashes, v: Store, r: Run, es: seq<Event>): Option<Privacy> {
    if r.basis.collection.Some?
       && !HasSnapshot(h.store, v, r.basis.collection.value.collection, r.basis.collection.value.snapshot) then None
    else
      match FileClasses(h, v, r.basis.files + CollectionFiles(h, v, r) + EventFiles(es))
      case None => None
      case Some(cs) =>
        Some(Strictest((if r.basis.collection.Some?
          then [v.collections[r.basis.collection.value.collection].basis.privacy] else []) + cs))
  }

  /** Each imported event continues the one before it and names only earlier events as parents. */
  predicate ImportLinked(es: seq<Event>) {
    forall i: nat :: i < |es| ==> LinkedAt(es, i)
  }

  predicate LinkedAt(es: seq<Event>, i: nat)
    requires i < |es|
  {
    && es[i].basis.sequence == i
    && es[i].basis.previous == IdBefore(es, i)
    && forall k: nat :: k < |es[i].basis.parents| ==> EarlierParent(es, i, k)
  }

  predicate EarlierParent(es: seq<Event>, i: nat, k: nat)
    requires i < |es| && k < |es[i].basis.parents|
  {
    exists j :: 0 <= j < i && es[j].id == es[i].basis.parents[k]
  }

  /** The checks `import_record_set` makes before it takes the lock. */
  predicate ImportShape(h: RunHashes, v: Store, rs: RecordSet) {
    && h.encodedSize(rs) <= MAX_RECORD_SET_BYTES
    && |rs.events| <= MAX_IMPORTED_EVENTS
    && RunValid(h, v, rs.run)
    && (forall i :: 0 <= i < |rs.events| ==> EventValid(h, v, rs.events[i]) && rs.events[i].basis.run == rs.run.id)
    && ImportLinked(ImportOrder(rs))
    && RunPrivacy(h, v, rs.run, ImportOrder(rs)) == Some(rs.privacy)
  }

  function ImportHead(es: seq<Event>): Head {
    Head(IdBefore(es, |es|), |es| - 1)
  }

  /** Writes for the events that are not on disk yet. */
  function MissingEvents(events: map<Id, Event>, es: seq<Event>): seq<Write> {
    if es == [] then []
    else (if es[0].id in events then [] else [PutEvent(es[0])]) + MissingEvents(events, es[1..])
  }

  /** `import_record_set` under the lock. */
  function PlanImport(h: RunHashes, v: Store, log: Log, rs: RecordSet): Result<seq<Write>, Error> {
    var es := ImportOrder(rs);
    var finish := MissingEvents(log.events, es) + [PutHead(rs.run.id, ImportHead(es))];
    if !ImportShape(h, v, rs) then Err(InvalidEvent)
    else if exists i :: 0 <= i < |es| && es[i].id in log.events && log.events[es[i].id] != es[i] then Err(Collision)
    else if rs.run.id in log.runs then
      if log.runs[rs.run.id] != rs.run then Err(Collision)
      else
        match History(h, v, log, rs.run.id)
        case None => Err(MissingHead)
        case Some(current) =>
          if |es| < |current| then Err(Truncates)
          else if exists i :: 0 <= i < |current| && es[i].id != current[i].id then Err(Rewrites)
          else Ok(finish)
    else Ok([PutRun(rs.run)] + finish)
  }

  datatype Op = Create(basis: RunBasis) | Append(request: AppendRequest) | Import(records: RecordSet)

  function Target(h: RunHashes, op: Op): Id {
    match op
    case Create(basis) => h.run(basis)
    case Append(q) => q.run
    case Import(rs) => rs.run.id
  }

  function Plan(h: RunHashes, v: Store, log: Log, op: Op): Result<seq<Write>, Error> {
    match op
    case Create(basis) => PlanCreate(h, v, log, basis)
    case Append(q) => PlanAppend(h, v, log, q)
    case Import(rs) => PlanImport(h, v, log, rs)
  }
}
