/** The loops of `storage/interaction_store.py`, each over the records it reads: walking a history back
    from its HEAD, verifying a captured run, checking and ordering an import. */
module RunLoops {
  import opened Common
  import opened Vault
  import opened RunLog
  import opened RunOps
  import LineageDag
  import Sorting

  // ----- walking back -----

  function Reversed(es: seq<Event>): (r: seq<Event>)
    ensures |r| == |es|
  {
    if es == [] then [] else [es[|es| - 1]] + Reversed(es[..|es| - 1])
  }

  /** What the walk will answer when `newest` has been collected and `n` events are still due. */
  ghost function Remaining(h: RunHashes, v: Store, events: map<Id, Event>, run: Id, cursor: Option<Id>, n: int,
      newest: seq<Event>): Option<seq<Event>> {
    if n < 0 then None
    else
      match Back(h, v, events, run, cursor, n)
      case None => None
      case Some(older) => Some(older + Reversed(newest))
  }

  lemma StepBack(h: RunHashes, v: Store, events: map<Id, Event>, run: Id, cursor: Id, n: nat, newest: seq<Event>)
    ensures Remaining(h, v, events, run, Some(cursor), n, newest) ==
      if HasEvent(h, v, events, cursor) && events[cursor].basis.run == run && events[cursor].basis.sequence == n - 1
      then Remaining(h, v, events, run, events[cursor].basis.previous, n - 1, newest + [events[cursor]])
      else None
  {
    hide EventValid;
    if HasEvent(h, v, events, cursor) && events[cursor].basis.run == run && events[cursor].basis.sequence == n - 1 {
      var e := events[cursor];
      assert (newest + [e])[..|newest|] == newest;
      match Back(h, v, events, run, e.basis.previous, n - 1)
      case None =>
      case Some(older) => assert older + [e] + Reversed(newest) == older + ([e] + Reversed(newest));
    }
  }

  /** `_list_events_from_head`: answers exactly the history the HEAD denotes.  The test for a repeated
      event never decides anything, because sequence numbers count down. */
  method ListEventsFromHead(h: RunHashes, v: Store, events: map<Id, Event>, run: Id, head: Head)
      returns (r: Option<seq<Event>>)
    ensures r == AtHead(h, v, events, run, head)
  {
    hide Back, HasEvent, Reversed;
    if !HeadShape(head) {
      return None;
    }
    ghost var answer := AtHead(h, v, events, run, head);
    NothingLeft(h, v, events, run, []);
    if head.event == None {
      return Some([]);
    }
    var newest: seq<Event> := [];
    var cursor := head.event;
    var expected := head.sequence;
    var seen: set<Id> := {};
    StartBack(h, v, events, run, cursor, expected + 1);
    while cursor.Some?
      invariant expected >= -1 && Remaining(h, v, events, run, cursor, expected + 1, newest) == answer
      invariant forall s :: s in seen ==> s in events && events[s].basis.sequence > expected
      decreases expected, if cursor.Some? then 1 else 0
    {
      StepBack(h, v, events, run, cursor.value, expected + 1, newest);
      StoredEvent(h, v, events, cursor.value);
      if cursor.value in seen {
        return None;
      }
      seen := seen + {cursor.value};
      if !HasEvent(h, v, events, cursor.value) {
        return None;
      }
      var event := events[cursor.value];
      if event.basis.run != run || event.basis.sequence != expected {
        return None;
      }
      newest := newest + [event];
      cursor := event.basis.previous;
      expected := expected - 1;
    }
    NothingLeft(h, v, events, run, newest);
    if expected != -1 {
      EndedShort(h, v, events, run, expected + 1, newest);
      return None;
    }
    r := Some(Reversed(newest));
  }

  lemma StoredEvent(h: RunHashes, v: Store, events: map<Id, Event>, e: Id)
    ensures HasEvent(h, v, events, e) ==> e in events
  {
  }

  lemma StartBack(h: RunHashes, v: Store, events: map<Id, Event>, run: Id, cursor: Option<Id>, n: nat)
    ensures Remaining(h, v, events, run, cursor, n, []) == Back(h, v, events, run, cursor, n)
  {
    match Back(h, v, events, run, cursor, n)
    case None =>
    case Some(older) => assert older + [] == older;
  }

  lemma NothingLeft(h: RunHashes, v: Store, events: map<Id, Event>, run: Id, newest: seq<Event>)
    ensures Remaining(h, v, events, run, None, 0, newest) == Some(Reversed(newest))
      && Back(h, v, events, run, None, 0) == Some([])
  {
    assert [] + Reversed(newest) == Reversed(newest);
  }

  lemma EndedShort(h: RunHashes, v: Store, events: map<Id, Event>, run: Id, n: int, newest: seq<Event>)
    requires n != 0
    ensures Remaining(h, v, events, run, None, n, newest).None?
  {
  }

  // ----- verifying a captured run -----

  /** Reads every File of the list that has not been read yet. */
  method CheckFiles(h: RunHashes, v: Store, files: seq<Id>, checked: set<Id>) returns (ok: bool, checked': set<Id>)
    requires forall f :: f in checked ==> Readable(h.store, v, f)
    ensures ok <==> forall f :: f in files ==> Readable(h.store, v, f)
    ensures forall f :: f in checked' ==> Readable(h.store, v, f)
  {
    hide Readable;
    checked' := checked;
    for i := 0 to |files|
      invariant forall f :: f in checked' ==> Readable(h.store, v, f)
      invariant forall j :: 0 <= j < i ==> Readable(h.store, v, files[j])
    {
      if files[i] !in checked' {
        if !Readable(h.store, v, files[i]) {
          return false, checked';
        }
        checked' := checked' + {files[i]};
      }
    }
    ok := true;
  }

  /** `_verify_bound_objects`. */
  method CheckBoundObjects(h: RunHashes, v: Store, r: Run, es: seq<Event>) returns (ok: bool)
    ensures ok <==> BoundObjectsReadable(h, v, r, es)
  {
    hide Readable, HasSnapshot;
    var good, checked := CheckFiles(h, v, r.basis.files, {});
    if !good {
      return false;
    }
    if r.basis.collection.Some? {
      var c := r.basis.collection.value;
      if !HasSnapshot(h.store, v, c.collection, c.snapshot) {
        return false;
      }
      SnapshotStored(h, v, c);
      good, checked := CheckFiles(h, v, v.snapshots[SnapshotKey(c.collection, c.snapshot)].basis.members, checked);
      if !good {
        return false;
      }
    }
    for i := 0 to |es|
      invariant forall f :: f in checked ==> Readable(h.store, v, f)
      invariant forall j, f :: 0 <= j < i && f in es[j].basis.files ==> Readable(h.store, v, f)
    {
      good, checked := CheckFiles(h, v, es[i].basis.files, checked);
      if !good {
        return false;
      }
    }
    ok := true;
  }

  lemma SnapshotStored(h: RunHashes, v: Store, c: CollectionRef)
    requires HasSnapshot(h.store, v, c.collection, c.snapshot)
    ensures SnapshotKey(c.collection, c.snapshot) in v.snapshots
  {
  }

  /** Every parent found in the run has a smaller sequence number. */
  method CheckParentsPrecede(es: seq<Event>) returns (ok: bool)
    requires UniqueIds(es) && LineageDag.Closed(LineageDag.ById(DagNodes(es)))
    ensures ok <==> ParentsPrecede(es)
  {
    hide LineageDag.Closed;
    for i := 0 to |es|
      invariant forall a, p, j :: 0 <= a < i && p in es[a].basis.parents && 0 <= j < |es| && es[j].id == p ==>
        es[j].basis.sequence < es[a].basis.sequence
    {
      var parents := es[i].basis.parents;
      for k := 0 to |parents|
        invariant forall b, j :: 0 <= b < k && 0 <= j < |es| && es[j].id == parents[b] ==>
          es[j].basis.sequence < es[i].basis.sequence
      {
        if exists j :: 0 <= j < |es| && es[j].id == parents[k] && es[j].basis.sequence >= es[i].basis.sequence {
          assert parents[k] in es[i].basis.parents;
          return false;
        }
      }
    }
    ok := true;
  }

  /** `_verify_snapshot`. */
  method VerifySnapshot(h: RunHashes, v: Store, r: Run, es: seq<Event>) returns (ok: bool)
    requires UniqueIds(es)
    ensures ok <==> Verifies(h, v, r, es)
  {
    hide LineageDag.Closed, LineageDag.Cyclic, BoundObjectsReadable, ParentsPrecede, UniqueIds;
    var verdict := LineageDag.CheckParentDag(DagNodes(es));
    if verdict != LineageDag.Accepted {
      return false;
    }
    var ordered := CheckParentsPrecede(es);
    if !ordered {
      return false;
    }
    ok := CheckBoundObjects(h, v, r, es);
  }

  // ----- checking an import -----

  ghost predicate ImportedEventsValid(h: RunHashes, v: Store, rs: RecordSet) {
    forall i :: 0 <= i < |rs.events| ==> EventValid(h, v, rs.events[i]) && rs.events[i].basis.run == rs.run.id
  }

  ghost predicate NoRepeats(es: seq<Event>) {
    forall i, j :: 0 <= i < j < |es| ==> es[i].id != es[j].id && es[i].basis.sequence != es[j].basis.sequence
  }

  /** The first pass over imported events. */
  method CheckImported(h: RunHashes, v: Store, rs: RecordSet) returns (ok: bool)
    ensures ok <==> ImportedEventsValid(h, v, rs) && NoRepeats(rs.events)
  {
    hide EventValid;
    var seenIds: set<Id> := {};
    var bySequence: set<int> := {};
    for i := 0 to |rs.events|
      invariant forall x :: x in seenIds <==> exists j :: 0 <= j < i && rs.events[j].id == x
      invariant forall s :: s in bySequence <==> exists j :: 0 <= j < i && rs.events[j].basis.sequence == s
      invariant forall j :: 0 <= j < i ==> EventValid(h, v, rs.events[j]) && rs.events[j].basis.run == rs.run.id
      invariant NoRepeats(rs.events[..i])
    {
      var event := rs.events[i];
      if event.id in seenIds {
        var j :| 0 <= j < i && rs.events[j].id == event.id;
        return false;
      }
      if !EventValid(h, v, event) || event.basis.run != rs.run.id {
        return false;
      }
      if event.basis.sequence in bySequence {
        var j :| 0 <= j < i && rs.events[j].basis.sequence == event.basis.sequence;
        return false;
      }
      seenIds := seenIds + {event.id};
      bySequence := bySequence + {event.basis.sequence};
    }
    assert rs.events[..|rs.events|] == rs.events;
    ok := true;
  }

  /** The second pass: contiguous from zero, each event continuing the one before, parents earlier. */
  method CheckLinks(es: seq<Event>) returns (ok: bool)
    requires NoRepeats(es)
    ensures ok <==> ImportLinked(es)
  {
    if exists i: nat :: i < |es| && es[i].basis.sequence != i {
      var i: nat :| i < |es| && es[i].basis.sequence != i;
      assert !LinkedAt(es, i);
      return false;
    }
    for i := 0 to |es|
      invariant forall a: nat :: a < i ==> LinkedAt(es, a)
    {
      var e := es[i];
      if e.basis.previous != IdBefore(es, i) {
        assert !LinkedAt(es, i);
        return false;
      }
      for k := 0 to |e.basis.parents|
        invariant forall b: nat :: b < k ==> EarlierParent(es, i, b)
      {
        if !(exists j :: 0 <= j < |es| && es[j].id == e.basis.parents[k] && es[j].basis.sequence < e.basis.sequence) {
          assert !EarlierParent(es, i, k);
          assert !LinkedAt(es, i);
          return false;
        }
        var j :| 0 <= j < |es| && es[j].id == e.basis.parents[k] && es[j].basis.sequence < e.basis.sequence;
        assert EarlierParent(es, i, k);
      }
      assert LinkedAt(es, i);
    }
    ok := true;
  }

  lemma SameIdSameEvent(h: RunHashes, a: Event, b: Event)
    requires h.Sound() && h.event(a.basis) == a.id && h.event(b.basis) == b.id
    ensures a.id == b.id <==> a == b
  {
  }

  /** Repeats are already ruled out by contiguity, so testing for them first changes nothing. */
  lemma ShapeHasNoRepeats(h: RunHashes, v: Store, rs: RecordSet)
    requires h.Sound() && ImportedEventsValid(h, v, rs) && ImportLinked(ImportOrder(rs))
    ensures NoRepeats(rs.events)
  {
    var es := ImportOrder(rs);
    Sorting.SortSorts(rs.events, SequenceKey());
    assert Sorting.KeysDistinct(es, SequenceKey()) by {
      forall i, j | 0 <= i < j < |es| ensures SequenceKey()(es[i]) != SequenceKey()(es[j]) {
        assert LinkedAt(es, i) && LinkedAt(es, j);
        assert SequenceKey()(es[i])[0] == i && SequenceKey()(es[j])[0] == j;
      }
    }
    Sorting.KeysDistinctByMultiset(es, rs.events, SequenceKey());
    forall i, j | 0 <= i < j < |rs.events|
      ensures rs.events[i].id != rs.events[j].id && rs.events[i].basis.sequence != rs.events[j].basis.sequence
    {
      assert SequenceKey()(rs.events[i]) != SequenceKey()(rs.events[j]);
      assert EventValid(h, v, rs.events[i]) && EventValid(h, v, rs.events[j]);
      SameIdSameEvent(h, rs.events[i], rs.events[j]);
    }
  }

  lemma OrderedHasNoRepeats(rs: RecordSet)
    requires NoRepeats(rs.events)
    ensures NoRepeats(ImportOrder(rs))
  {
    var es := ImportOrder(rs);
    Sorting.SortSorts(rs.events, SequenceKey());
    var byId := (e: Event) => [e.id];
    assert Sorting.KeysDistinct(rs.events, SequenceKey()) by {
      forall i, j | 0 <= i < j < |rs.events| ensures SequenceKey()(rs.events[i]) != SequenceKey()(rs.events[j]) {
        assert SequenceKey()(rs.events[i])[0] != SequenceKey()(rs.events[j])[0];
      }
    }
    assert Sorting.KeysDistinct(rs.events, byId) by {
      forall i, j | 0 <= i < j < |rs.events| ensures byId(rs.events[i]) != byId(rs.events[j]) {
        assert byId(rs.events[i])[0] != byId(rs.events[j])[0];
      }
    }
    Sorting.KeysDistinctByMultiset(rs.events, es, SequenceKey());
    Sorting.KeysDistinctByMultiset(rs.events, es, byId);
    forall i, j | 0 <= i < j < |es| ensures es[i].id != es[j].id && es[i].basis.sequence != es[j].basis.sequence {
      assert SequenceKey()(es[i]) != SequenceKey()(es[j]) && byId(es[i]) != byId(es[j]);
    }
  }
}
