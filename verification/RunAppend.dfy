/** What `append_event` accepts and records, said of the request and the history alone. */
module RunAppend {
  import opened Common
  import opened Vault
  import opened RunLog
  import opened RunOps
  import opened RunPlans

  /** The event that continues the history `older` as the request asks: without named parents its only
      parent is the last event so far; named parents and Files are put in ascending order. */
  ghost predicate Continues(q: AppendRequest, older: seq<Event>, b: EventBasis) {
    && b.run == q.run && b.sequence == |older| && b.previous == IdBefore(older, |older|)
    && (q.parents.None? ==> b.parents == if older == [] then [] else [older[|older| - 1].id])
    && (q.parents.Some? ==> StrictlyAscending(b.parents) && multiset(b.parents) == multiset(q.parents.value))
    && StrictlyAscending(b.files) && multiset(b.files) == multiset(q.files)
    && b.kind == q.kind && b.epistemic == q.epistemic && b.temporal == q.temporal
    && b.occurredAt == q.occurredAt && b.refs == q.refs && b.payload == q.payload
  }

  /** An earlier event of the same run, as a named parent must be. */
  ghost predicate MayBeParent(log: Log, run: Id, length: nat, p: Id) {
    p in log.events && log.events[p].basis.run == run && log.events[p].basis.sequence < length
  }

  /** Known Files, each once; roles exactly for questions, responses and evidence; named parents each
      once and from before; and an event said to be derived names something it derives from. */
  ghost predicate MayAppend(h: RunHashes, v: Store, log: Log, q: AppendRequest, older: seq<Event>) {
    && Distinct(q.files) && (forall f :: f in q.files ==> HasFile(h.store, v, f))
    && (if q.kind.InLattice() then q.epistemic.Some? && q.temporal.Some? else q.epistemic.None? && q.temporal.None?)
    && (q.parents.Some? ==>
          Distinct(q.parents.value) && forall p :: p in q.parents.value ==> MayBeParent(log, q.run, |older|, p))
    && (q.epistemic == Some(Derived) ==>
          || q.files != [] || q.refs != []
          || (if q.parents.None? then older != [] else q.parents.value != []))
  }

  lemma SameMembers(a: seq<Id>, b: seq<Id>)
    requires multiset(a) == multiset(b)
    ensures forall x :: x in a <==> x in b
    ensures a == [] <==> b == []
  {
    forall x ensures x in a <==> x in b {
      assert x in multiset(a) <==> x in multiset(b);
    }
    assert a == [] ==> |multiset(b)| == 0;
    assert b == [] ==> |multiset(a)| == 0;
  }

  lemma PlannedContinues(h: RunHashes, v: Store, log: Log, q: AppendRequest)
    requires LogInv(h, v, log) && PlanEvent(h, v, log, q).Ok?
    ensures q.run in log.heads && History(h, v, log, q.run).Some?
    ensures
      var e := PlanEvent(h, v, log, q).value;
      e.id == h.event(e.basis) && Continues(q, History(h, v, log, q.run).value, e.basis)
  {
    hide LogInv, History, HasRun, HasFile, ParentObjection, SortedRefs;
    HistoryStored(h, v, log, q.run);
    SortedRefsAscend(q.files);
    if q.parents.Some? { SortedRefsAscend(q.parents.value); }
  }

  lemma {:induction false} ParentsPass(h: RunHashes, v: Store, log: Log, run: Id, length: nat, parents: seq<Id>)
    requires LogInv(h, v, log) && forall p :: p in parents ==> MayBeParent(log, run, length, p)
    ensures ParentObjection(h, v, log, run, length, parents).None?
  {
    hide EventValid;
    if parents != [] {
      assert MayBeParent(log, run, length, parents[0]);
      assert EventStored(h, v, log, parents[0]);
      ParentsPass(h, v, log, run, length, parents[1..]);
    }
  }

  lemma StoredIsEvent(h: RunHashes, v: Store, log: Log, e: Event)
    requires h.Sound() && LogInv(h, v, log) && e.id == h.event(e.basis) && e.id in log.events
    ensures log.events[e.id] == e
  {
    assert EventStored(h, v, log, e.id);
  }

  lemma HeadHasRun(h: RunHashes, v: Store, log: Log, run: Id)
    requires LogInv(h, v, log) && run in log.heads
    ensures HasRun(h, v, log, run)
  {
  }

  lemma AcceptedMayAppend(h: RunHashes, v: Store, log: Log, q: AppendRequest)
    requires LogInv(h, v, log) && PlanEvent(h, v, log, q).Ok?
    ensures q.run in log.heads && History(h, v, log, q.run).Some?
    ensures MayAppend(h, v, log, q, History(h, v, log, q.run).value)
  {
    hide LogInv, History, HasRun, HasFile, ParentObjection, SortedRefs, ChosenParents, PlanEvent, MayBeParent;
    PassedChecks(h, v, log, q);
    HistoryStored(h, v, log, q.run);
    FilesPassed(h, v, q);
    ParentsPassed(h, v, log, q, History(h, v, log, q.run).value);
  }

  lemma PassedChecks(h: RunHashes, v: Store, log: Log, q: AppendRequest)
    requires PlanEvent(h, v, log, q).Ok?
    ensures q.run in log.heads && HeadShape(log.heads[q.run])
    ensures q.kind.InLattice() == q.epistemic.Some? && q.kind.InLattice() == q.temporal.Some?
    ensures SortedRefs(q.files).Ok?
    ensures forall i :: 0 <= i < |SortedRefs(q.files).value| ==> HasFile(h.store, v, SortedRefs(q.files).value[i])
    ensures ChosenParents(q, log.heads[q.run]).Ok?
    ensures
      var parents := ChosenParents(q, log.heads[q.run]).value;
      && ParentObjection(h, v, log, q.run, log.heads[q.run].sequence + 1, parents).None?
      && (q.epistemic == Some(Derived) ==> parents != [] || SortedRefs(q.files).value != [] || q.refs != [])
  {
    hide HasRun, HasFile, SortedRefs, ChosenParents, ParentObjection;
  }

  lemma FilesPassed(h: RunHashes, v: Store, q: AppendRequest)
    requires SortedRefs(q.files).Ok?
    requires forall i :: 0 <= i < |SortedRefs(q.files).value| ==> HasFile(h.store, v, SortedRefs(q.files).value[i])
    ensures Distinct(q.files) && forall f :: f in q.files ==> HasFile(h.store, v, f)
    ensures SortedRefs(q.files).value == [] <==> q.files == []
  {
    hide HasFile;
    var files := SortedRefs(q.files).value;
    SortedRefsAscend(q.files);
    SameMembers(files, q.files);
    forall f | f in q.files ensures HasFile(h.store, v, f) {
      assert f in files;
    }
  }

  lemma ParentsPassed(h: RunHashes, v: Store, log: Log, q: AppendRequest, older: seq<Event>)
    requires LogInv(h, v, log) && q.run in log.heads && History(h, v, log, q.run) == Some(older)
    requires ChosenParents(q, log.heads[q.run]).Ok?
    requires ParentObjection(h, v, log, q.run, |older|, ChosenParents(q, log.heads[q.run]).value).None?
    ensures q.parents.Some? ==>
      Distinct(q.parents.value) && forall p :: p in q.parents.value ==> MayBeParent(log, q.run, |older|, p)
    ensures ChosenParents(q, log.heads[q.run]).value == [] <==>
      if q.parents.None? then older == [] else q.parents.value == []
  {
    hide LogInv, History, ParentObjection, EventValid;
    HistoryStored(h, v, log, q.run);
    var parents := ChosenParents(q, log.heads[q.run]).value;
    ParentsAccepted(h, v, log, q.run, |older|, parents);
    if q.parents.Some? {
      SortedRefsAscend(q.parents.value);
      SameMembers(parents, q.parents.value);
    }
  }

  lemma MayAppendAccepted(h: RunHashes, v: Store, log: Log, q: AppendRequest)
    requires h.Sound() && LogInv(h, v, log) && q.run in log.heads && History(h, v, log, q.run).Some?
    requires MayAppend(h, v, log, q, History(h, v, log, q.run).value)
    ensures PlanEvent(h, v, log, q).Ok?
  {
    hide LogInv, History, HasRun, HasFile, ParentObjection, SortedRefs, RunHashes.Sound, PlanEvent;
    HistoryStored(h, v, log, q.run);
    var older := History(h, v, log, q.run).value;
    FilesPass(h, v, q);
    ParentsChosen(h, v, log, q, older);
    forall e: Event | e.id == h.event(e.basis) && e.id in log.events ensures log.events[e.id] == e {
      StoredIsEvent(h, v, log, e);
    }
    HeadHasRun(h, v, log, q.run);
    NothingObjects(h, v, log, q);
  }

  lemma FilesPass(h: RunHashes, v: Store, q: AppendRequest)
    requires Distinct(q.files) && forall f :: f in q.files ==> HasFile(h.store, v, f)
    ensures SortedRefs(q.files).Ok?
    ensures
      var files := SortedRefs(q.files).value;
      (files == [] <==> q.files == []) && forall i :: 0 <= i < |files| ==> HasFile(h.store, v, files[i])
  {
    hide HasFile;
    SortedRefsAscend(q.files);
    SameMembers(SortedRefs(q.files).value, q.files);
  }

  lemma ParentsChosen(h: RunHashes, v: Store, log: Log, q: AppendRequest, older: seq<Event>)
    requires LogInv(h, v, log) && q.run in log.heads && History(h, v, log, q.run) == Some(older)
    requires MayAppend(h, v, log, q, older)
    ensures ChosenParents(q, log.heads[q.run]).Ok?
    ensures
      var parents := ChosenParents(q, log.heads[q.run]).value;
      && ParentObjection(h, v, log, q.run, |older|, parents).None?
      && (parents == [] <==> if q.parents.None? then older == [] else q.parents.value == [])
  {
    hide LogInv, History, HasFile, ParentObjection;
    HistoryStored(h, v, log, q.run);
    if q.parents.Some? {
      SortedRefsAscend(q.parents.value);
      SameMembers(SortedRefs(q.parents.value).value, q.parents.value);
    } else if older != [] {
      LastMayBeParent(h, v, log, q.run);
    }
    ParentsPass(h, v, log, q.run, |older|, ChosenParents(q, log.heads[q.run]).value);
  }

  lemma NothingObjects(h: RunHashes, v: Store, log: Log, q: AppendRequest)
    requires HasRun(h, v, log, q.run) && q.run in log.heads && HeadShape(log.heads[q.run])
    requires q.kind.InLattice() == q.epistemic.Some? && q.kind.InLattice() == q.temporal.Some?
    requires SortedRefs(q.files).Ok?
    requires forall i :: 0 <= i < |SortedRefs(q.files).value| ==> HasFile(h.store, v, SortedRefs(q.files).value[i])
    requires ChosenParents(q, log.heads[q.run]).Ok?
    requires
      var parents := ChosenParents(q, log.heads[q.run]).value;
      && ParentObjection(h, v, log, q.run, log.heads[q.run].sequence + 1, parents).None?
      && (q.epistemic == Some(Derived) ==> parents != [] || SortedRefs(q.files).value != [] || q.refs != [])
    requires forall e: Event :: e.id == h.event(e.basis) && e.id in log.events ==> log.events[e.id] == e
    ensures PlanEvent(h, v, log, q).Ok?
  {
    hide HasRun, HasFile, SortedRefs, ChosenParents, ParentObjection;
  }

  lemma LastMayBeParent(h: RunHashes, v: Store, log: Log, run: Id)
    requires LogInv(h, v, log) && run in log.heads && History(h, v, log, run).Some?
    requires History(h, v, log, run).value != []
    ensures var es := History(h, v, log, run).value; MayBeParent(log, run, |es|, es[|es| - 1].id)
  {
    HistoryStored(h, v, log, run);
  }

  /** An append is planned exactly for a run with a HEAD and a request that continues its history. */
  lemma AppendAcceptedIff(h: RunHashes, v: Store, log: Log, q: AppendRequest)
    requires h.Sound() && LogInv(h, v, log)
    ensures q.run in log.heads ==> History(h, v, log, q.run).Some?
    ensures PlanEvent(h, v, log, q).Ok? <==>
      q.run in log.heads && MayAppend(h, v, log, q, History(h, v, log, q.run).value)
  {
    hide LogInv, History, MayAppend, PlanEvent;
    if q.run in log.heads { HistoryStored(h, v, log, q.run); }
    if PlanEvent(h, v, log, q).Ok? { AcceptedMayAppend(h, v, log, q); }
    if q.run in log.heads && MayAppend(h, v, log, q, History(h, v, log, q.run).value) {
      MayAppendAccepted(h, v, log, q);
    }
  }

  /** A plain append, one that names no parents, meets no other refusal: on a history that is not
      empty it needs only known Files and the roles of its kind. */
  lemma PlainAppendAccepted(h: RunHashes, v: Store, log: Log, q: AppendRequest)
    requires h.Sound() && LogInv(h, v, log) && q.run in log.heads && q.parents.None?
    requires Distinct(q.files) && forall f :: f in q.files ==> HasFile(h.store, v, f)
    requires if q.kind.InLattice() then q.epistemic.Some? && q.temporal.Some? else q.epistemic.None? && q.temporal.None?
    ensures History(h, v, log, q.run).Some?
    ensures PlanEvent(h, v, log, q).Err? <==>
      q.epistemic == Some(Derived) && q.files == [] && q.refs == [] && History(h, v, log, q.run).value == []
  {
    AppendAcceptedIff(h, v, log, q);
  }
}
