/** Moving a run between stores: `export_record_set`, `import_record_set` and the run fingerprint. */
module RunTransfer {
  import opened Common
  import opened Vault
  import opened RunLog
  import opened RunOps
  import opened RunPlans
  import opened RunVerifiable
  import LineageDag
  import Sorting

  function RunInventory(h: RunHashes, r: Run, es: seq<Event>): Inventory {
    Inventory(r.id, h.runRecord(r),
      seq(|es|, i requires 0 <= i < |es| => es[i].id),
      seq(|es|, i requires 0 <= i < |es| => h.eventRecord(es[i])), r.basis.files, r.basis.collection)
  }

  /** `_fingerprint_from_snapshot`. */
  function Fingerprint(h: RunHashes, r: Run, es: seq<Event>): Id {
    h.inventory(RunInventory(h, r, es))
  }

  /** Equal fingerprints mean the same run with the same events. */
  lemma FingerprintIdentifies(h: RunHashes, r: Run, es: seq<Event>, r': Run, es': seq<Event>)
    requires h.Sound() && Fingerprint(h, r, es) == Fingerprint(h, r', es')
    ensures r == r' && es == es'
  {
    var a, b := RunInventory(h, r, es), RunInventory(h, r', es');
    assert a == b;
    assert |a.eventShas| == |es| && |b.eventShas| == |es'|;
    forall i | 0 <= i < |es| ensures es[i] == es'[i] {
      assert a.eventShas[i] == h.eventRecord(es[i]) && b.eventShas[i] == h.eventRecord(es'[i]);
    }
  }

  /** `export_record_set` of a run that verifies. */
  ghost function Export(h: RunHashes, v: Store, log: Log, run: Id): RecordSet
    requires VerifyRunAccepts(h, v, log, run) && RunPrivacy(h, v, log.runs[run], History(h, v, log, run).value).Some?
  {
    var es := History(h, v, log, run).value;
    RecordSet(RunPrivacy(h, v, log.runs[run], es).value, log.runs[run], es)
  }

  lemma {:induction false} FlattenMembers(ss: seq<seq<Id>>, x: Id)
    requires x in Flatten(ss)
    ensures exists i :: 0 <= i < |ss| && x in ss[i]
  {
    if x !in ss[0] {
      FlattenMembers(ss[1..], x);
      var i :| 0 <= i < |ss[1..]| && x in ss[1..][i];
      assert x in ss[i + 1];
    }
  }

  /** A File the run record, its bound snapshot or one of its events names. */
  ghost predicate NamesFile(v: Store, r: Run, es: seq<Event>, f: Id) {
    f in r.basis.files || InBoundSnapshot(v, r, f) || exists i :: 0 <= i < |es| && f in es[i].basis.files
  }

  ghost predicate InBoundSnapshot(v: Store, r: Run, f: Id) {
    && r.basis.collection.Some?
    && var c := r.basis.collection.value;
       SnapshotKey(c.collection, c.snapshot) in v.snapshots
       && f in v.snapshots[SnapshotKey(c.collection, c.snapshot)].basis.members
  }

  /** Every record whose class counts can be read. */
  ghost predicate NamesKnown(h: RunHashes, v: Store, r: Run, es: seq<Event>) {
    && (forall f :: NamesFile(v, r, es, f) ==> HasFile(h.store, v, f))
    && (r.basis.collection.Some? ==>
          HasSnapshot(h.store, v, r.basis.collection.value.collection, r.basis.collection.value.snapshot))
  }

  /** `p` is no laxer than any File the run names nor than its Collection, and is Public or the class of
      one of them. */
  ghost predicate IsClassOf(v: Store, r: Run, es: seq<Event>, p: Privacy) {
    && (forall f :: NamesFile(v, r, es, f) ==> f in v.files && v.files[f].basis.privacy.Rank() <= p.Rank())
    && (r.basis.collection.Some? ==>
          var c := r.basis.collection.value.collection;
          c in v.collections && v.collections[c].basis.privacy.Rank() <= p.Rank())
    && (|| p == Public
        || (exists f :: NamesFile(v, r, es, f) && v.files[f].basis.privacy == p)
        || (r.basis.collection.Some? && v.collections[r.basis.collection.value.collection].basis.privacy == p))
  }

  lemma ClassUnique(v: Store, r: Run, es: seq<Event>, p: Privacy, q: Privacy)
    requires IsClassOf(v, r, es, p) && IsClassOf(v, r, es, q)
    ensures p == q
  {
    assert p.Rank() <= q.Rank() && q.Rank() <= p.Rank();
  }

  lemma {:induction false} FlattenHolds(ss: seq<seq<Id>>, i: nat, x: Id)
    requires i < |ss| && x in ss[i]
    ensures x in Flatten(ss)
  {
    if i > 0 { FlattenHolds(ss[1..], i - 1, x); }
  }

  lemma CollectedAreNamed(h: RunHashes, v: Store, r: Run, es: seq<Event>, f: Id)
    ensures f in r.basis.files + CollectionFiles(h, v, r) + EventFiles(es) <==> NamesFile(v, r, es, f)
  {
    var ss := seq(|es|, i requires 0 <= i < |es| => es[i].basis.files);
    if f in EventFiles(es) {
      FlattenMembers(ss, f);
      var i :| 0 <= i < |ss| && f in ss[i];
      assert f in es[i].basis.files;
    }
    if i :| 0 <= i < |es| && f in es[i].basis.files {
      FlattenHolds(ss, i, f);
    }
  }

  lemma {:induction false} FileClassesAre(h: RunHashes, v: Store, files: seq<Id>)
    ensures FileClasses(h, v, files).Some? <==> forall f :: f in files ==> HasFile(h.store, v, f)
    ensures FileClasses(h, v, files).Some? ==>
      var cs := FileClasses(h, v, files).value;
      && (forall f :: f in files ==> v.files[f].basis.privacy in cs)
      && (forall c :: c in cs ==> exists f :: f in files && v.files[f].basis.privacy == c)
  {
    if files != [] {
      FileClassesAre(h, v, files[1..]);
      assert files == [files[0]] + files[1..];
      if FileClasses(h, v, files).Some? {
        forall c | c in FileClasses(h, v, files).value ensures exists f :: f in files && v.files[f].basis.privacy == c {
          if c == v.files[files[0]].basis.privacy {
            assert files[0] in files;
          } else {
            var f :| f in files[1..] && v.files[f].basis.privacy == c;
            assert f in files;
          }
        }
      }
    }
  }

  /** The class of a run is the strictest of what it names, and is known exactly when all of that is. */
  lemma PrivacyIsClass(h: RunHashes, v: Store, r: Run, es: seq<Event>)
    ensures RunPrivacy(h, v, r, es).Some? <==> NamesKnown(h, v, r, es)
    ensures RunPrivacy(h, v, r, es).Some? ==> IsClassOf(v, r, es, RunPrivacy(h, v, r, es).value)
  {
    hide HasFile, FileClasses, NamesFile, CollectionFiles, EventFiles;
    var files := r.basis.files + CollectionFiles(h, v, r) + EventFiles(es);
    forall f ensures f in files <==> NamesFile(v, r, es, f) { CollectedAreNamed(h, v, r, es, f); }
    FileClassesAre(h, v, files);
    if RunPrivacy(h, v, r, es).Some? {
      var p, cs := RunPrivacy(h, v, r, es).value, FileClasses(h, v, files).value;
      assert IsClassOf(v, r, es, p) by {
        forall f | NamesFile(v, r, es, f) ensures f in v.files && v.files[f].basis.privacy.Rank() <= p.Rank() {
          assert HasFile(h.store, v, f);
          KnownIsStored(h, v, f);
        }
      }
    }
  }

  lemma KnownIsStored(h: RunHashes, v: Store, f: Id)
    requires HasFile(h.store, v, f)
    ensures f in v.files
  {
  }

  /** A run that verifies can always be exported: every class it collects is known. */
  lemma VerifiedHasPrivacy(h: RunHashes, v: Store, r: Run, es: seq<Event>)
    requires BoundObjectsReadable(h, v, r, es)
    ensures RunPrivacy(h, v, r, es).Some?
  {
    forall f | NamesFile(v, r, es, f) ensures HasFile(h.store, v, f) {
      assert Readable(h.store, v, f);
    }
    PrivacyIsClass(h, v, r, es);
  }

  lemma {:induction false} FileClassesGrow(h: RunHashes, v: Store, v': Store, files: seq<Id>)
    requires Grows(v, v') && FileClasses(h, v, files).Some?
    ensures FileClasses(h, v', files) == FileClasses(h, v, files)
  {
    if files != [] { FileClassesGrow(h, v, v', files[1..]); }
  }

  /** A store holding the same records computes the same privacy class. */
  lemma PrivacyGrows(h: RunHashes, v: Store, v': Store, r: Run, es: seq<Event>)
    requires Grows(v, v') && RunPrivacy(h, v, r, es).Some?
    ensures RunPrivacy(h, v', r, es) == RunPrivacy(h, v, r, es)
  {
    FileClassesGrow(h, v, v', r.basis.files + CollectionFiles(h, v, r) + EventFiles(es));
  }

  /** An import of the right shape states the class of what it brings, however its events are listed. */
  lemma ImportStatesClass(h: RunHashes, v: Store, rs: RecordSet)
    requires ImportShape(h, v, rs)
    ensures NamesKnown(h, v, rs.run, rs.events) && IsClassOf(v, rs.run, rs.events, rs.privacy)
  {
    hide RunValid, EventValid, ImportLinked, RunPrivacy, HasFile, HasSnapshot;
    var es := ImportOrder(rs);
    PrivacyIsClass(h, v, rs.run, es);
    Sorting.SortSorts(rs.events, SequenceKey());
    forall f ensures NamesFile(v, rs.run, rs.events, f) <==> NamesFile(v, rs.run, es, f) {
      if i :| 0 <= i < |es| && f in es[i].basis.files {
        assert es[i] in multiset(es) && es[i] in rs.events;
      }
      if i :| 0 <= i < |rs.events| && f in rs.events[i].basis.files {
        assert rs.events[i] in multiset(rs.events) && rs.events[i] in es;
      }
    }
  }

  /** A history is already in import order, and links the way import demands. */
  lemma HistoryImports(run: Id, es: seq<Event>, rs: RecordSet)
    requires Chained(run, es) && ParentsLinked(es) && rs.events == es
    ensures ImportOrder(rs) == es && ImportLinked(es)
  {
    assert Sorting.SortedBy(es, SequenceKey());
    Sorting.SortIdempotent(es, SequenceKey());
    forall i: nat | i < |es| ensures LinkedAt(es, i) {
      HistoryLinkedAt(run, es, i);
    }
  }

  lemma HistoryLinkedAt(run: Id, es: seq<Event>, i: nat)
    requires Chained(run, es) && ParentsLinked(es) && i < |es|
    ensures LinkedAt(es, i)
  {
    forall k: nat | k < |es[i].basis.parents| ensures EarlierParent(es, i, k) {
      assert es[i].basis.parents[k] in es[i].basis.parents;
    }
  }

  /** What the target store may already hold of the run: nothing, or a prefix of the import. */
  ghost predicate ExtendsStored(h: RunHashes, v: Store, log: Log, run: Id, es: seq<Event>) {
    run !in log.runs || (run in log.heads && Extends(History(h, v, log, run), Some(es)))
  }

  lemma NoCollision(h: RunHashes, v: Store, log: Log, rs: RecordSet)
    requires h.Sound() && LogInv(h, v, log) && ImportShape(h, v, rs)
    ensures forall i :: 0 <= i < |ImportOrder(rs)| && ImportOrder(rs)[i].id in log.events ==>
      log.events[ImportOrder(rs)[i].id] == ImportOrder(rs)[i]
    ensures rs.run.id in log.runs ==> log.runs[rs.run.id] == rs.run
  {
    hide ImportLinked, RunPrivacy;
    var es := ImportOrder(rs);
    ImportIsChain(h, v, rs);
    forall i | 0 <= i < |es| && es[i].id in log.events ensures log.events[es[i].id] == es[i] {
      assert EventStored(h, v, log, es[i].id);
      assert h.event(log.events[es[i].id].basis) == h.event(es[i].basis);
    }
    if rs.run.id in log.runs {
      assert h.run(log.runs[rs.run.id].basis) == h.run(rs.run.basis);
    }
  }

  /** Under the lock, import accepts exactly the extensions of the stored history. */
  lemma ImportAcceptsExtensions(h: RunHashes, v: Store, log: Log, rs: RecordSet)
    requires h.Sound() && LogInv(h, v, log) && ImportShape(h, v, rs)
    ensures PlanImport(h, v, log, rs).Ok? <==> ExtendsStored(h, v, log, rs.run.id, ImportOrder(rs))
  {
    NoCollision(h, v, log, rs);
    if rs.run.id in log.runs && rs.run.id in log.heads {
      PrefixByIds(h, v, log, rs);
    }
    hide ImportShape, ImportOrder, Back, LogInv, EventValid, RunValid;
  }

  /** Comparing identities, as the code does, is comparing events. */
  lemma PrefixByIds(h: RunHashes, v: Store, log: Log, rs: RecordSet)
    requires h.Sound() && LogInv(h, v, log) && ImportShape(h, v, rs) && rs.run.id in log.heads
    ensures History(h, v, log, rs.run.id).Some?
    ensures
      var es, current := ImportOrder(rs), History(h, v, log, rs.run.id).value;
      IsPrefix(current, es) <==> |current| <= |es| && forall i :: 0 <= i < |current| ==> es[i].id == current[i].id
  {
    hide ImportShape, ImportOrder, LogInv, EventValid, RunValid, History;
    HistoryStored(h, v, log, rs.run.id);
    NoCollision(h, v, log, rs);
    var es, current := ImportOrder(rs), History(h, v, log, rs.run.id).value;
    if |current| <= |es| && forall i :: 0 <= i < |current| ==> es[i].id == current[i].id {
      forall i | 0 <= i < |current| ensures current[i] == es[i] {
        assert log.events[es[i].id] == es[i];
      }
    }
  }

  /** The graph search import runs on its events can never object. */
  lemma ImportSearchAccepts(h: RunHashes, v: Store, rs: RecordSet)
    requires h.Sound() && ImportShape(h, v, rs)
    ensures
      var g := LineageDag.ById(DagNodes(ImportOrder(rs)));
      LineageDag.Closed(g) && !LineageDag.Cyclic(g)
  {
    var es := ImportOrder(rs);
    ImportIsChain(h, v, rs);
    hide ImportShape, ImportOrder, LineageDag.Cyclic, ParentsLinked;
    forall i, j | 0 <= i < |es| && 0 <= j < |es| && es[i].id == es[j].id ensures i == j {
      assert h.event(es[i].basis) == h.event(es[j].basis);
    }
    LinkedIsAcyclic(es);
  }

  /** An exported run has the shape import demands, in any store holding the same records, exactly
      when it is within the transfer limits. */
  lemma ExportHasShape(h: RunHashes, v: Store, log: Log, v': Store, run: Id)
    requires h.Sound() && LogInv(h, v, log) && run in log.heads && VerifyRunAccepts(h, v, log, run) && Grows(v, v')
    ensures RunPrivacy(h, v, log.runs[run], History(h, v, log, run).value).Some?
    ensures
      var rs := Export(h, v, log, run);
      && ImportOrder(rs) == rs.events == History(h, v, log, run).value
      && (ImportShape(h, v', rs) <==> h.encodedSize(rs) <= MAX_RECORD_SET_BYTES && |rs.events| <= MAX_IMPORTED_EVENTS)
  {
    hide LogInv, History, ParentsLinked, BoundObjectsReadable, VerifyRunAccepts, RunPrivacy;
    HistoryStored(h, v, log, run);
    ExportedIsLinked(h, v, log, run);
    var es := History(h, v, log, run).value;
    VerifiedHasPrivacy(h, v, log.runs[run], es);
    var rs := Export(h, v, log, run);
    HistoryImports(run, es, rs);
    PrivacyGrows(h, v, v', log.runs[run], es);
    RunValidGrows(h, v, v', log.runs[run]);
    ChainValidElsewhere(h, v, log.events, v', run, es);
    hide RunValid, EventValid, ImportLinked, ImportOrder, Chained;
  }

  lemma ChainValidElsewhere(h: RunHashes, v: Store, events: map<Id, Event>, v': Store, run: Id, es: seq<Event>)
    requires StoredChain(h, v, events, run, es) && Grows(v, v')
    ensures forall i :: 0 <= i < |es| ==> EventValid(h, v', es[i]) && es[i].basis.run == run
  {
    forall i | 0 <= i < |es| ensures EventValid(h, v', es[i]) {
      assert HasEvent(h, v, events, es[i].id);
      EventValidGrows(h, v, v', es[i]);
    }
  }

  /** Export then import reproduces the run: in any store that holds the same Files and Collections
      and nothing else of the run than a prefix, the import succeeds within the transfer limits, and
      the copy has the same history, the same fingerprint, and verifies. */
  lemma ExportImportRoundTrip(h: RunHashes, v: Store, log: Log, v': Store, log': Log, run: Id)
    requires h.Sound() && LogInv(h, v, log) && run in log.heads && VerifyRunAccepts(h, v, log, run)
    requires Grows(v, v') && StoreSound(h.store, v') && LogInv(h, v', log')
    ensures RunPrivacy(h, v, log.runs[run], History(h, v, log, run).value).Some?
    ensures
      var rs := Export(h, v, log, run);
      PlanImport(h, v', log', rs).Ok? <==>
        h.encodedSize(rs) <= MAX_RECORD_SET_BYTES && |rs.events| <= MAX_IMPORTED_EVENTS
        && ExtendsStored(h, v', log', run, rs.events)
    ensures
      var rs := Export(h, v, log, run);
      PlanImport(h, v', log', rs).Ok? ==>
        var copy := ApplyAll(log', PlanImport(h, v', log', rs).value);
        && LogInv(h, v', copy) && run in copy.heads && copy.runs[run] == log.runs[run]
        && History(h, v', copy, run) == Some(rs.events)
        && Fingerprint(h, copy.runs[run], rs.events) == Fingerprint(h, log.runs[run], History(h, v, log, run).value)
        && VerifyRunAccepts(h, v', copy, run)
  {
    hide LogInv, History, StoreSound, VerifyRunAccepts, ImportShape, ImportOrder, Grows, ExtendsStored, RunPrivacy;
    ExportHasShape(h, v, log, v', run);
    var rs := Export(h, v, log, run);
    ExportedRun(h, v, log, run);
    if ImportShape(h, v', rs) {
      ImportAcceptsExtensions(h, v', log', rs);
    } else {
      ShapelessImportFails(h, v', log', rs);
    }
    if PlanImport(h, v', log', rs).Ok? {
      ImportInstalls(h, v', log', rs);
      var copy := ApplyAll(log', PlanImport(h, v', log', rs).value);
      VerifyIffLinked(h, v', copy, run);
      ExportedIsLinked(h, v, log, run);
    }
  }

  lemma ExportedRun(h: RunHashes, v: Store, log: Log, run: Id)
    requires LogInv(h, v, log) && run in log.heads && VerifyRunAccepts(h, v, log, run)
    requires RunPrivacy(h, v, log.runs[run], History(h, v, log, run).value).Some?
    ensures Export(h, v, log, run).run == log.runs[run] && log.runs[run].id == run
  {
  }

  lemma ExportedIsLinked(h: RunHashes, v: Store, log: Log, run: Id)
    requires LogInv(h, v, log) && run in log.heads && VerifyRunAccepts(h, v, log, run)
    ensures ParentsLinked(History(h, v, log, run).value)
    ensures RunValid(h, v, log.runs[run]) && BoundObjectsReadable(h, v, log.runs[run], History(h, v, log, run).value)
  {
    hide LogInv, History, Verifies, StoredChain;
    HistoryStored(h, v, log, run);
    VerifiesIffLinked(h, v, log.events, log.runs[run], History(h, v, log, run).value);
  }

  lemma ShapelessImportFails(h: RunHashes, v: Store, log: Log, rs: RecordSet)
    requires !ImportShape(h, v, rs)
    ensures PlanImport(h, v, log, rs).Err?
  {
    hide ImportShape, History;
  }

  /** After an accepted import the run's history is the imported one. */
  lemma ImportInstalls(h: RunHashes, v: Store, log: Log, rs: RecordSet)
    requires h.Sound() && LogInv(h, v, log) && PlanImport(h, v, log, rs).Ok?
    ensures
      var copy := ApplyAll(log, PlanImport(h, v, log, rs).value);
      && LogInv(h, v, copy) && rs.run.id in copy.heads && copy.runs[rs.run.id] == rs.run
      && History(h, v, copy, rs.run.id) == Some(ImportOrder(rs))
  {
    hide LogInv, History, GoodPlan, Outcome, ImportOrder, ImportShape;
    var todo := PlanImport(h, v, log, rs).value;
    ImportPlansWell(h, v, log, rs);
    PlanKeepsLogInv(h, v, log, rs.run.id, todo);
    PlanReachesOutcome(h, v, log, rs.run.id, todo);
    ImportSetsRun(h, v, log, rs);
  }

  lemma ImportSetsRun(h: RunHashes, v: Store, log: Log, rs: RecordSet)
    requires h.Sound() && LogInv(h, v, log) && PlanImport(h, v, log, rs).Ok?
    ensures
      var copy := ApplyAll(log, PlanImport(h, v, log, rs).value);
      && rs.run.id in copy.runs && copy.runs[rs.run.id] == rs.run && rs.run.id in copy.heads
  {
    hide LogInv, History, ImportOrder, ImportShape;
    var es := ImportOrder(rs);
    var finish := MissingEvents(log.events, es) + [PutHead(rs.run.id, ImportHead(es))];
    EventWritesKeepRuns(log, MissingEvents(log.events, es), PutHead(rs.run.id, ImportHead(es)), log.events, es);
    if rs.run.id !in log.runs {
      var log' := Apply(log, PutRun(rs.run));
      assert ([PutRun(rs.run)] + finish)[1..] == finish;
      EventWritesKeepRuns(log', MissingEvents(log.events, es), PutHead(rs.run.id, ImportHead(es)), log.events, es);
    }
  }

  lemma {:induction false} EventWritesKeepRuns(log: Log, ws: seq<Write>, last: Write, disk: map<Id, Event>,
      es: seq<Event>)
    requires last.PutHead? && ws == MissingEvents(disk, es)
    ensures ApplyAll(log, ws + [last]).runs == log.runs && last.target in ApplyAll(log, ws + [last]).heads
    decreases |es|
  {
    if es == [] {
      assert ws + [last] == [last];
      assert ApplyAll(log, [last]) == ApplyAll(Apply(log, last), []);
    } else if es[0].id in disk {
      EventWritesKeepRuns(log, ws, last, disk, es[1..]);
    } else {
      assert (ws + [last])[1..] == ws[1..] + [last] && ws[1..] == MissingEvents(disk, es[1..]);
      EventWritesKeepRuns(Apply(log, ws[0]), ws[1..], last, disk, es[1..]);
    }
  }

  lemma {:induction false} PlanReachesOutcome(h: RunHashes, v: Store, log: Log, run: Id, todo: seq<Write>)
    requires h.Sound() && LogInv(h, v, log) && GoodPlan(h, v, log, run, todo)
    ensures History(h, v, ApplyAll(log, todo), run) == Outcome(h, v, log, run, todo)
    decreases |todo|
  {
    hide LogInv, GoodPlan, Apply, History, AtHead, Pending;
    if todo != [] {
      PerformWrite(h, v, log, run, todo);
      PlanReachesOutcome(h, v, Apply(log, todo[0]), run, todo[1..]);
    }
  }
}
