/** The interaction store object (`storage/interaction_store.py`): run, event, HEAD and lock files as
    fields that the methods update one atomic write at a time. */
module InteractionStore {
  import opened Common
  import opened Vault
  import opened RunLog
  import opened RunAppend
  import opened RunOps
  import opened RunPlans
  import opened RunLoops
  import LineageDag
  import RunTransfer
  import RunVerifiable
  import CS = ControlStore

  datatype Failure = LockHeld | Refused(reason: RunOps.Error) | NotVerified

  // ----- what the planned writes come to -----

  lemma ApplyOne(log: Log, w: Write)
    ensures ApplyAll(log, [w]) == Apply(log, w)
  {
    assert ApplyAll(log, [w]) == ApplyAll(Apply(log, w), [w][1..]);
  }

  lemma ApplyTwo(log: Log, w1: Write, w2: Write)
    ensures ApplyAll(log, [w1, w2]) == Apply(Apply(log, w1), w2)
  {
    assert [w1, w2][1..] == [w2];
    ApplyOne(Apply(log, w1), w2);
  }

  lemma CreateEffect(h: RunHashes, v: Store, log: Log, basis: RunBasis)
    requires PlanCreate(h, v, log, basis).Ok?
    ensures
      var r := Run(h.run(basis), basis);
      var after := ApplyAll(log, PlanCreate(h, v, log, basis).value);
      after == if r.id in log.runs && r.id in log.heads then log
               else if r.id in log.runs then log.(heads := log.heads[r.id := EmptyHead])
               else log.(runs := log.runs[r.id := r], heads := log.heads[r.id := EmptyHead])
  {
    var r := Run(h.run(basis), basis);
    ApplyOne(log, PutHead(r.id, EmptyHead));
    ApplyTwo(log, PutRun(r), PutHead(r.id, EmptyHead));
  }

  /** A creation is refused only for an invalid run, or one whose HEAD is lost while events of it exist. */
  lemma CreateAcceptedIff(h: RunHashes, v: Store, log: Log, basis: RunBasis)
    requires h.Sound() && LogInv(h, v, log)
    ensures PlanCreate(h, v, log, basis).Ok? <==>
      && RunValid(h, v, Run(h.run(basis), basis))
      && (h.run(basis) in log.runs && h.run(basis) !in log.heads ==> !RunVerifiable.HasEvents(log, h.run(basis)))
  {
    hide RunValid, Back;
    var r := Run(h.run(basis), basis);
    if r.id in log.runs { StoredRun(h, v, log, r.id); }
  }

  lemma StoredRun(h: RunHashes, v: Store, log: Log, run: Id)
    requires LogInv(h, v, log) && run in log.runs
    ensures log.runs[run].id == run && h.run(log.runs[run].basis) == run
  {
  }

  lemma CreateWrites(h: RunHashes, v: Store, log: Log, basis: RunBasis)
    requires h.Sound() && LogInv(h, v, log) && PlanCreate(h, v, log, basis).Ok?
    ensures
      var r := Run(h.run(basis), basis);
      ApplyAll(log, PlanCreate(h, v, log, basis).value)
        == log.(runs := log.runs[r.id := r],
                heads := if r.id in log.heads then log.heads else log.heads[r.id := EmptyHead])
  {
    hide LogInv, RunValid, ApplyAll;
    CreateEffect(h, v, log, basis);
    var r := Run(h.run(basis), basis);
    if r.id in log.heads { HistoryStored(h, v, log, r.id); }
    if r.id in log.runs {
      StoredRun(h, v, log, r.id);
      assert log.runs == log.runs[r.id := r];
    }
  }

  lemma InvalidRefused(h: RunHashes, v: Store, log: Log, basis: RunBasis)
    requires !RunValid(h, v, Run(h.run(basis), basis))
    ensures PlanCreate(h, v, log, basis).Err?
  {
  }

  /** The events on disk once the missing ones among `es` are written. */
  lemma {:induction false} WriteMissing(log: Log, disk: map<Id, Event>, es: seq<Event>, last: Write)
    requires es != [] && NoRepeats(es)
    requires forall i :: 0 <= i < |es| ==> (es[i].id in log.events <==> es[i].id in disk)
    ensures
      var next := if es[0].id in log.events then log else Apply(log, PutEvent(es[0]));
      && ApplyAll(log, MissingEvents(disk, es) + [last]) == ApplyAll(next, MissingEvents(disk, es[1..]) + [last])
      && NoRepeats(es[1..])
      && forall i :: 0 <= i < |es[1..]| ==> (es[1..][i].id in next.events <==> es[1..][i].id in disk)
  {
    var rest := MissingEvents(disk, es[1..]) + [last];
    if es[0].id in disk {
      assert MissingEvents(disk, es) == MissingEvents(disk, es[1..]);
    } else {
      var ws := MissingEvents(disk, es) + [last];
      assert ws[0] == PutEvent(es[0]) && ws[1..] == rest;
    }
  }

  class InteractionStore {
    const h: RunHashes
    const storage: CS.ControlStore

    var runs: map<Id, Run>
    var events: map<Id, Event>
    var heads: map<Id, Head>
    var locks: set<Id>

    function Records(): Log
      reads this
    {
      Log(runs, events, heads)
    }

    ghost predicate Valid()
      reads this, storage
    {
      h.Sound() && storage.Valid() && storage.h == h.store && LogInv(h, storage.Contents(), Records())
    }

    constructor (h: RunHashes, storage: CS.ControlStore)
      requires h.Sound() && storage.Valid() && storage.h == h.store
      ensures Valid() && Records() == EmptyLog && locks == {} && this.h == h && this.storage == storage
    {
      this.h, this.storage := h, storage;
      runs, events, heads, locks := map[], map[], map[], {};
    }

    /** `create_run`: refused under the lock only for a run whose HEAD is lost while events of it exist; a new
        run starts with an empty history and a known one keeps its own. */
    method CreateRun(basis: RunBasis) returns (r: Result<Run, Failure>)
      requires Valid()
      modifies this`runs, this`heads, this`locks
      ensures Valid() && locks == old(locks)
      ensures r.Ok? <==>
        && h.run(basis) !in old(locks) && RunValid(h, storage.Contents(), Run(h.run(basis), basis))
        && (h.run(basis) in old(runs) && h.run(basis) !in old(heads) ==>
              !RunVerifiable.HasEvents(old(Records()), h.run(basis)))
      ensures r.Ok? ==>
        && r.value == Run(h.run(basis), basis)
        && runs == old(runs)[r.value.id := r.value]
        && heads == if r.value.id in old(heads) then old(heads) else old(heads)[r.value.id := EmptyHead]
      ensures r.Ok? ==>
        && PlanCreate(h, storage.Contents(), old(Records()), basis).Ok?
        && Records() == ApplyAll(old(Records()), PlanCreate(h, storage.Contents(), old(Records()), basis).value)
      ensures r.Err? ==> Records() == old(Records())
    {
      hide LogInv, RunValid, ApplyAll, PlanCreate, RunVerifiable.HasEvents;
      ghost var v, before := storage.Contents(), Records();
      CreateAcceptedIff(h, v, before, basis);
      if PlanCreate(h, v, before, basis).Ok? {
        CreatePlansWell(h, v, before, basis);
        RunVerifiable.PlanKeepsLogInv(h, v, before, h.run(basis), PlanCreate(h, v, before, basis).value);
        CreateWrites(h, v, before, basis);
      }
      var run := Run(h.run(basis), basis);
      if !RunValid(h, storage.Contents(), run) {
        InvalidRefused(h, v, before, basis);
        return Err(Refused(InvalidRun));
      }
      if run.id in locks {
        return Err(LockHeld);
      }
      locks := locks + {run.id};
      var refused := InstallRun(run);
      locks := locks - {run.id};
      r := if refused.Some? then Err(Refused(refused.value)) else Ok(run);
    }

    /** The body of a creation under the lock; a lost HEAD is only repaired while no events exist. */
    method InstallRun(run: Run) returns (refused: Option<RunOps.Error>)
      requires RunValid(h, storage.Contents(), run) && run.id == h.run(run.basis)
      modifies this`runs, this`heads
      ensures refused.None? <==> PlanCreate(h, storage.Contents(), old(Records()), run.basis).Ok?
      ensures refused.None? ==> Records() == ApplyAll(old(Records()),
        PlanCreate(h, storage.Contents(), old(Records()), run.basis).value)
      ensures refused.Some? ==> Records() == old(Records())
    {
      hide RunValid, ApplyAll;
      if PlanCreate(h, storage.Contents(), Records(), run.basis).Ok? {
        CreateEffect(h, storage.Contents(), Records(), run.basis);
      }
      if run.id in runs {
        if runs[run.id] != run {
          return Some(Collision);
        }
        if run.id in heads {
          return if HeadShape(heads[run.id]) then None else Some(MissingHead);
        }
        if exists e :: e in events && events[e].basis.run == run.id {
          return Some(OrphanedEvents);
        }
        heads := heads[run.id := EmptyHead];
        return None;
      }
      runs := runs[run.id := run];
      heads := heads[run.id := EmptyHead];
      refused := None;
    }

    /** `append_event`: accepted exactly when the request may continue the run's history, which then grows
        by the one event that continues it as requested; this is the event of the atomic plan. */
    method AppendEvent(q: AppendRequest) returns (r: Result<Event, Failure>)
      requires Valid()
      modifies this`events, this`heads, this`locks
      ensures Valid() && locks == old(locks)
      ensures r.Ok? <==>
        && q.run !in old(locks) && q.run in old(heads)
        && MayAppend(h, storage.Contents(), old(Records()), q,
             History(h, storage.Contents(), old(Records()), q.run).value)
      ensures r.Ok? ==>
        && var older, e := History(h, storage.Contents(), old(Records()), q.run).value, r.value;
        && e.id == h.event(e.basis) && Continues(q, older, e.basis)
        && events == old(events)[e.id := e] && heads == old(heads)[q.run := Head(Some(e.id), |older|)]
        && History(h, storage.Contents(), Records(), q.run) == Some(older + [e])
      ensures r.Ok? ==>
        && PlanEvent(h, storage.Contents(), old(Records()), q) == Ok(r.value)
        && Records() == ApplyAll(old(Records()), PlanAppend(h, storage.Contents(), old(Records()), q).value)
      ensures r.Err? ==> Records() == old(Records())
    {
      hide LogInv, HasRun, HasFile, SortedRefs, ApplyAll, History, ParentObjection, EventValid, AtHead, HeadShape;
      hide PlanEvent, MayAppend, Continues;
      ghost var v, before := storage.Contents(), Records();
      AppendAcceptedIff(h, v, before, q);
      RefusedEarly(h, v, before, q);
      if PlanEvent(h, v, before, q).Ok? {
        PlannedContinues(h, v, before, q);
        ContinuesAt(q, History(h, v, before, q.run).value, PlanEvent(h, v, before, q).value.basis);
        AppendPlansWell(h, v, before, q);
        RunVerifiable.PlanKeepsLogInv(h, v, before, q.run, PlanAppend(h, v, before, q).value);
        RunVerifiable.HistoryAfterAppend(h, v, before, q);
      }
      if !HasRun(h, storage.Contents(), Records(), q.run) {
        return Err(Refused(UnknownRun));
      }
      var files := SortedRefs(q.files);
      if files.Err? {
        return Err(Refused(files.error));
      }
      if exists i :: 0 <= i < |files.value| && !HasFile(h.store, storage.Contents(), files.value[i]) {
        return Err(Refused(UnknownFile));
      }
      if q.kind.InLattice() != q.epistemic.Some? || q.kind.InLattice() != q.temporal.Some? {
        return Err(Refused(RolesMismatch));
      }
      if q.run in locks {
        return Err(LockHeld);
      }
      locks := locks + {q.run};
      var planned := NextEvent(q, files.value);
      if planned.Err? {
        r := Err(Refused(planned.error));
      } else {
        var event := planned.value;
        if event.id !in events {
          events := events[event.id := event];
        }
        PlannedTwice(h, v, before, q);
        assert events == before.events[event.id := event];
        heads := heads[q.run := Head(Some(event.id), event.basis.sequence)];
        r := Ok(event);
      }
      locks := locks - {q.run};
    }

    /** What `append_event` settles under the lock before it writes. */
    method NextEvent(q: AppendRequest, files: seq<Id>) returns (r: Result<Event, RunOps.Error>)
      requires Valid()
      requires HasRun(h, storage.Contents(), Records(), q.run) && SortedRefs(q.files) == Ok(files)
      requires forall i :: 0 <= i < |files| ==> HasFile(h.store, storage.Contents(), files[i])
      requires q.kind.InLattice() == q.epistemic.Some? && q.kind.InLattice() == q.temporal.Some?
      ensures r == PlanEvent(h, storage.Contents(), Records(), q)
      ensures r.Ok? <==>
        && q.run in heads
        && MayAppend(h, storage.Contents(), Records(), q, History(h, storage.Contents(), Records(), q.run).value)
      ensures r.Ok? ==>
        && r.value.id == h.event(r.value.basis)
        && Continues(q, History(h, storage.Contents(), Records(), q.run).value, r.value.basis)
    {
      hide HasRun, HasFile, SortedRefs, HeadShape, ParentObjection, LogInv, History, MayAppend, Continues;
      AppendAcceptedIff(h, storage.Contents(), Records(), q);
      if PlanEvent(h, storage.Contents(), Records(), q).Ok? {
        PlannedContinues(h, storage.Contents(), Records(), q);
      }
      if q.run !in heads || !HeadShape(heads[q.run]) {
        return Err(MissingHead);
      }
      HeadCounts(heads[q.run]);
      var head := heads[q.run];
      var chosen := ChosenParents(q, head);
      if chosen.Err? {
        return Err(chosen.error);
      }
      var parents := chosen.value;
      if q.kind.InLattice() && q.epistemic == Some(Derived) && parents == [] && files == [] && q.refs == [] {
        return Err(MissingLineage);
      }
      var objection := CheckParents(q.run, head.sequence + 1, parents);
      if objection.Some? {
        return Err(objection.value);
      }
      var basis := EventBasis(q.run, head.sequence + 1, head.event, parents, q.kind, q.epistemic, q.temporal,
                              q.occurredAt, files, q.refs, q.payload);
      var event := Event(h.event(basis), basis);
      if event.id in events && events[event.id] != event {
        return Err(Collision);
      }
      r := Ok(event);
    }

    /** The loop over the named parents. */
    method CheckParents(run: Id, sequence: nat, parents: seq<Id>) returns (r: Option<RunOps.Error>)
      ensures r == ParentObjection(h, storage.Contents(), Records(), run, sequence, parents)
    {
      hide HasEvent;
      for i := 0 to |parents|
        invariant ParentObjection(h, storage.Contents(), Records(), run, sequence, parents)
               == ParentObjection(h, storage.Contents(), Records(), run, sequence, parents[i..])
      {
        var parent := parents[i];
        StoredEvent(h, storage.Contents(), events, parent);
        assert parents[i..][1..] == parents[i + 1..];
        if !HasEvent(h, storage.Contents(), events, parent) {
          return Some(UnknownParent);
        }
        if events[parent].basis.run != run {
          return Some(ForeignParent);
        }
        if events[parent].basis.sequence >= sequence {
          return Some(LateParent);
        }
      }
      r := None;
    }

    /** `list_events`. */
    method ListEvents(run: Id) returns (r: Option<seq<Event>>)
      ensures r == if HasRun(h, storage.Contents(), Records(), run) then History(h, storage.Contents(), Records(), run)
        else None
    {
      hide HasRun, AtHead;
      if !HasRun(h, storage.Contents(), Records(), run) || run !in heads {
        return None;
      }
      r := ListEventsFromHead(h, storage.Contents(), events, run, heads[run]);
    }

    /** `verify_run`: answers the fingerprint of the captured run, for any store content, damaged or not. */
    method VerifyRun(run: Id) returns (r: Result<Id, Failure>)
      modifies this`locks
      ensures locks == old(locks) && (old(Valid()) ==> Valid())
      ensures r.Ok? <==> run !in locks && VerifyRunAccepts(h, storage.Contents(), Records(), run)
      ensures r.Ok? ==> run in runs && r.value == RunTransfer.Fingerprint(h, runs[run],
        History(h, storage.Contents(), Records(), run).value)
    {
      hide LogInv, HasRun, Verifies, History;
      if run in locks {
        return Err(LockHeld);
      }
      locks := locks + {run};
      var captured := ListEvents(run);
      locks := locks - {run};
      if captured.None? {
        return Err(NotVerified);
      }
      HistoryOfRun(h, storage.Contents(), Records(), run);
      var ok := VerifySnapshot(h, storage.Contents(), runs[run], captured.value);
      if !ok {
        return Err(NotVerified);
      }
      r := Ok(RunTransfer.Fingerprint(h, runs[run], captured.value));
    }

    /** `export_record_set`. */
    method ExportRecordSet(run: Id) returns (r: Result<RecordSet, Failure>)
      modifies this`locks
      ensures locks == old(locks) && (old(Valid()) ==> Valid())
      ensures r.Ok? <==> run !in locks && VerifyRunAccepts(h, storage.Contents(), Records(), run)
      ensures r.Ok? ==>
        && RunPrivacy(h, storage.Contents(), runs[run], History(h, storage.Contents(), Records(), run).value).Some?
        && r.value == RunTransfer.Export(h, storage.Contents(), Records(), run)
      ensures r.Ok? ==>
        && run in runs && r.value.run == runs[run]
        && History(h, storage.Contents(), Records(), run) == Some(r.value.events)
        && RunTransfer.IsClassOf(storage.Contents(), r.value.run, r.value.events, r.value.privacy)
    {
      hide LogInv, HasRun, Verifies, History, RunPrivacy, RunTransfer.IsClassOf;
      var verified := VerifyRun(run);
      if verified.Err? {
        return Err(verified.error);
      }
      var captured := ListEvents(run);
      VerifiedIsReadable(h, storage.Contents(), Records(), run);
      RunTransfer.VerifiedHasPrivacy(h, storage.Contents(), runs[run], captured.value);
      RunTransfer.PrivacyIsClass(h, storage.Contents(), runs[run], captured.value);
      var privacy := RunPrivacy(h, storage.Contents(), runs[run], captured.value);
      r := Ok(RecordSet(privacy.value, runs[run], captured.value));
    }

    /** `import_record_set`: accepted under the lock exactly for a record set of the right shape that extends
        the stored history; then the run's history is the imported one, and the copy verifies. */
    method ImportRecordSet(rs: RecordSet) returns (r: Result<Id, Failure>)
      requires Valid()
      modifies this`runs, this`events, this`heads, this`locks
      ensures Valid() && locks == old(locks)
      ensures r.Ok? <==>
        && rs.run.id !in old(locks) && ImportShape(h, storage.Contents(), rs)
        && RunTransfer.ExtendsStored(h, storage.Contents(), old(Records()), rs.run.id, ImportOrder(rs))
      ensures r.Ok? ==>
        && rs.run.id in runs && runs[rs.run.id] == rs.run
        && History(h, storage.Contents(), Records(), rs.run.id) == Some(ImportOrder(rs))
      ensures r.Ok? ==>
        && PlanImport(h, storage.Contents(), old(Records()), rs).Ok?
        && Records() == ApplyAll(old(Records()), PlanImport(h, storage.Contents(), old(Records()), rs).value)
        && VerifyRunAccepts(h, storage.Contents(), Records(), rs.run.id)
        && r.value == RunTransfer.Fingerprint(h, rs.run, ImportOrder(rs))
        && RunTransfer.IsClassOf(storage.Contents(), rs.run, rs.events, rs.privacy)
      ensures r.Err? ==> Records() == old(Records())
    {
      hide LogInv, History, VerifyRunAccepts, ApplyAll, ImportOrder, ImportShape, PlanImport;
      hide RunTransfer.IsClassOf, RunTransfer.NamesKnown, RunTransfer.ExtendsStored;
      ghost var v, before := storage.Contents(), Records();
      if PlanImport(h, v, before, rs).Ok? { ImportVerifies(h, v, before, rs); }
      if ImportShape(h, v, rs) {
        RunTransfer.ImportStatesClass(h, v, rs);
        RunTransfer.ImportAcceptsExtensions(h, v, before, rs);
      }
      var shaped := CheckShape(rs);
      if !shaped {
        ShapelessRefused(h, v, before, rs);
        return Err(Refused(InvalidEvent));
      }
      if rs.run.id in locks {
        return Err(LockHeld);
      }
      locks := locks + {rs.run.id};
      var refused := InstallImport(rs);
      locks := locks - {rs.run.id};
      if refused.Some? {
        return Err(Refused(refused.value));
      }
      r := VerifyRun(rs.run.id);
    }

    /** The checks before the lock. */
    method CheckShape(rs: RecordSet) returns (ok: bool)
      requires h.Sound()
      ensures ok <==> ImportShape(h, storage.Contents(), rs)
    {
      hide RunPrivacy, RunValid, ImportLinked, NoRepeats, LineageDag.Cyclic, LineageDag.Closed;
      if h.encodedSize(rs) > MAX_RECORD_SET_BYTES || |rs.events| > MAX_IMPORTED_EVENTS {
        return false;
      }
      if !RunValid(h, storage.Contents(), rs.run) {
        return false;
      }
      if ImportedEventsValid(h, storage.Contents(), rs) && ImportLinked(ImportOrder(rs)) {
        ShapeHasNoRepeats(h, storage.Contents(), rs);
      }
      var valid := CheckImported(h, storage.Contents(), rs);
      if !valid {
        return false;
      }
      OrderedHasNoRepeats(rs);
      var ordered := ImportOrder(rs);
      var linked := CheckLinks(ordered);
      if !linked {
        return false;
      }
      var verdict := LineageDag.CheckParentDag(DagNodes(ordered));
      SearchAgrees(h, storage.Contents(), rs);
      if verdict != LineageDag.Accepted {
        assert false;
      }
      ok := RunPrivacy(h, storage.Contents(), rs.run, ordered) == Some(rs.privacy);
    }

    /** The import under the lock: nothing may be truncated or rewritten; then run, events, HEAD. */
    method InstallImport(rs: RecordSet) returns (refused: Option<RunOps.Error>)
      requires Valid() && ImportShape(h, storage.Contents(), rs)
      modifies this`runs, this`events, this`heads
      ensures refused.None? <==> PlanImport(h, storage.Contents(), old(Records()), rs).Ok?
      ensures refused.None? ==> Records() == ApplyAll(old(Records()),
        PlanImport(h, storage.Contents(), old(Records()), rs).value)
      ensures refused.Some? ==> Records() == old(Records())
    {
      hide LogInv, History, ImportOrder, ImportShape, ApplyAll, Apply;
      ghost var v, before := storage.Contents(), Records();
      RunTransfer.NoCollision(h, v, before, rs);
      var run := rs.run;
      var ordered := ImportOrder(rs);
      if run.id in runs {
        if runs[run.id] != run {
          assert false;
        }
        if run.id !in heads {
          NoHeadNoHistory(h, v, before, run.id);
          return Some(MissingHead);
        }
        StoredRunReadable(h, v, before, run.id);
        var current := ListEvents(run.id);
        if |ordered| < |current.value| {
          return Some(Truncates);
        }
        if exists i :: 0 <= i < |current.value| && ordered[i].id != current.value[i].id {
          return Some(Rewrites);
        }
      } else {
        runs := runs[run.id := run];
        FirstRun(before, run, MissingEvents(before.events, ordered) + [PutHead(run.id, ImportHead(ordered))]);
      }
      WriteEvents(rs, before.events);
      PutsHead(Records(), run.id, ImportHead(ordered));
      heads := heads[run.id := ImportHead(ordered)];
      refused := None;
    }

    /** The writing loop: events already on disk are left alone. */
    method WriteEvents(rs: RecordSet, ghost disk: map<Id, Event>)
      requires h.Sound() && ImportShape(h, storage.Contents(), rs) && events == disk
      requires forall i :: 0 <= i < |ImportOrder(rs)| && ImportOrder(rs)[i].id in events ==>
        events[ImportOrder(rs)[i].id] == ImportOrder(rs)[i]
      modifies this`events
      ensures
        var last := PutHead(rs.run.id, ImportHead(ImportOrder(rs)));
        ApplyAll(old(Records()), MissingEvents(disk, ImportOrder(rs)) + [last]) == Apply(Records(), last)
    {
      hide ImportOrder, ImportShape, ApplyAll, Apply, MissingEvents;
      var ordered := ImportOrder(rs);
      ghost var last := PutHead(rs.run.id, ImportHead(ordered));
      ShapeDistinct(h, storage.Contents(), rs);
      ghost var done := ApplyAll(Records(), MissingEvents(disk, ordered) + [last]);
      assert ordered[0..] == ordered;
      for i := 0 to |ordered|
        invariant runs == old(runs) && heads == old(heads) && NoRepeats(ordered[i..])
        invariant forall j :: 0 <= j < |ordered[i..]| ==> (ordered[i..][j].id in events <==> ordered[i..][j].id in disk)
        invariant forall j :: 0 <= j < |ordered| && ordered[j].id in events ==> events[ordered[j].id] == ordered[j]
        invariant ApplyAll(Records(), MissingEvents(disk, ordered[i..]) + [last]) == done
      {
        var event := ordered[i];
        assert ordered[i..][0] == event && ordered[i..][1..] == ordered[i + 1..];
        WriteMissing(Records(), disk, ordered[i..], last);
        PutsEvent(Records(), event);
        if event.id in events && events[event.id] != event {
          assert false;
        }
        if event.id !in events {
          SameIdOnly(h, storage.Contents(), rs, events, event);
          events := events[event.id := event];
        }
      }
      NothingMissing(Records(), disk, last);
    }
  }

  // ----- facts the methods rest on -----

  lemma PlannedTwice(h: RunHashes, v: Store, log: Log, q: AppendRequest)
    requires PlanEvent(h, v, log, q).Ok?
    ensures
      var e := PlanEvent(h, v, log, q).value;
      e.id in log.events ==> log.events == log.events[e.id := e]
  {
    PlannedEventValid(h, v, log, q);
  }

  /** The checks before the lock refuse what the plan refuses. */
  lemma RefusedEarly(h: RunHashes, v: Store, log: Log, q: AppendRequest)
    ensures PlanEvent(h, v, log, q).Ok? ==>
      && HasRun(h, v, log, q.run) && SortedRefs(q.files).Ok?
      && (forall i :: 0 <= i < |SortedRefs(q.files).value| ==> HasFile(h.store, v, SortedRefs(q.files).value[i]))
      && q.kind.InLattice() == q.epistemic.Some? && q.kind.InLattice() == q.temporal.Some?
  {
    hide HasRun, HasFile, SortedRefs, ChosenParents, ParentObjection;
  }

  lemma ContinuesAt(q: AppendRequest, older: seq<Event>, b: EventBasis)
    requires Continues(q, older, b)
    ensures b.sequence == |older|
  {
  }

  lemma HeadCounts(head: Head)
    requires HeadShape(head)
    ensures head.sequence + 1 >= 0
  {
  }

  lemma HistoryOfRun(h: RunHashes, v: Store, log: Log, run: Id)
    requires HasRun(h, v, log, run) && History(h, v, log, run).Some?
    ensures run in log.runs && log.runs[run].id == run && UniqueIds(History(h, v, log, run).value)
  {
    BackChained(h, v, log.events, run, log.heads[run].event, log.heads[run].sequence + 1);
    HistoryIdsDistinct(h, v, log.events, run, History(h, v, log, run).value);
  }

  lemma VerifiedIsReadable(h: RunHashes, v: Store, log: Log, run: Id)
    requires VerifyRunAccepts(h, v, log, run)
    ensures run in log.runs && BoundObjectsReadable(h, v, log.runs[run], History(h, v, log, run).value)
  {
  }

  /** An accepted import leaves a run that verifies. */
  lemma ImportVerifies(h: RunHashes, v: Store, log: Log, rs: RecordSet)
    requires h.Sound() && LogInv(h, v, log) && StoreSound(h.store, v) && PlanImport(h, v, log, rs).Ok?
    ensures
      var copy := ApplyAll(log, PlanImport(h, v, log, rs).value);
      && LogInv(h, v, copy) && VerifyRunAccepts(h, v, copy, rs.run.id)
      && rs.run.id in copy.runs && copy.runs[rs.run.id] == rs.run
      && History(h, v, copy, rs.run.id) == Some(ImportOrder(rs))
  {
    hide LogInv, History, VerifyRunAccepts, StoreSound, ImportOrder, ImportShape;
    RunTransfer.ImportInstalls(h, v, log, rs);
    var copy := ApplyAll(log, PlanImport(h, v, log, rs).value);
    RunVerifiable.VerifyIffLinked(h, v, copy, rs.run.id);
    ImportIsChain(h, v, rs);
    HistoryStored(h, v, copy, rs.run.id);
  }

  lemma ShapelessRefused(h: RunHashes, v: Store, log: Log, rs: RecordSet)
    requires !ImportShape(h, v, rs)
    ensures PlanImport(h, v, log, rs).Err?
  {
    RunTransfer.ShapelessImportFails(h, v, log, rs);
  }

  /** The graph search of an import never decides anything. */
  lemma SearchAgrees(h: RunHashes, v: Store, rs: RecordSet)
    requires h.Sound() && ImportedEventsValid(h, v, rs) && ImportLinked(ImportOrder(rs))
    ensures
      var g := LineageDag.ById(DagNodes(ImportOrder(rs)));
      LineageDag.Closed(g) && !LineageDag.Cyclic(g)
  {
    hide ImportOrder, ImportLinked, LineageDag.Cyclic, ParentsLinked, EventValid;
    var es := ImportOrder(rs);
    forall i | 0 <= i < |es| ensures EventValid(h, v, es[i]) && es[i].basis.run == rs.run.id {
      ImportOrderMembers(rs, i);
    }
    LinkedChains(rs.run.id, es);
    ShapeHasNoRepeats(h, v, rs);
    OrderedHasNoRepeats(rs);
    LinkedIsAcyclic(es);
  }

  lemma ShapeDistinct(h: RunHashes, v: Store, rs: RecordSet)
    requires h.Sound() && ImportShape(h, v, rs)
    ensures NoRepeats(ImportOrder(rs))
  {
    ShapeHasNoRepeats(h, v, rs);
    OrderedHasNoRepeats(rs);
  }

  lemma SameIdOnly(h: RunHashes, v: Store, rs: RecordSet, events: map<Id, Event>, e: Event)
    requires h.Sound() && ImportShape(h, v, rs) && e in ImportOrder(rs)
    requires forall j :: 0 <= j < |ImportOrder(rs)| && ImportOrder(rs)[j].id in events ==>
      events[ImportOrder(rs)[j].id] == ImportOrder(rs)[j]
    ensures forall j :: 0 <= j < |ImportOrder(rs)| && ImportOrder(rs)[j].id in events[e.id := e] ==>
      events[e.id := e][ImportOrder(rs)[j].id] == ImportOrder(rs)[j]
  {
    ShapeDistinct(h, v, rs);
  }

  lemma PutsEvent(log: Log, e: Event)
    ensures Apply(log, PutEvent(e)) == log.(events := log.events[e.id := e])
  {
  }

  lemma PutsHead(log: Log, run: Id, head: Head)
    ensures Apply(log, PutHead(run, head)) == log.(heads := log.heads[run := head])
  {
  }

  lemma NothingMissing(log: Log, disk: map<Id, Event>, last: Write)
    ensures ApplyAll(log, MissingEvents(disk, []) + [last]) == Apply(log, last)
  {
    assert [] + [last] == [last];
    ApplyOne(log, last);
  }

  lemma FirstRun(log: Log, r: Run, rest: seq<Write>)
    ensures ApplyAll(log, [PutRun(r)] + rest) == ApplyAll(log.(runs := log.runs[r.id := r]), rest)
  {
    assert ([PutRun(r)] + rest)[1..] == rest;
  }

  lemma NoHeadNoHistory(h: RunHashes, v: Store, log: Log, run: Id)
    requires run !in log.heads
    ensures History(h, v, log, run).None?
  {
  }

  lemma StoredRunReadable(h: RunHashes, v: Store, log: Log, run: Id)
    requires LogInv(h, v, log) && run in log.runs && run in log.heads
    ensures HasRun(h, v, log, run) && History(h, v, log, run).Some?
  {
  }
}
