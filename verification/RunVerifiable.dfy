/** When does `verify_run` accept what the writers leave behind?  Always, if nobody crashes; after a
    crash, exactly as long as no one names the orphaned event as a parent. */
module RunVerifiable {
  import opened Common
  import opened Vault
  import opened RunLog
  import opened RunOps
  import opened RunPlans
  import opened RunConcurrency

  /** The history run `r` has, or will have once the writer holding its lock is done. */
  ghost function Settled(h: RunHashes, s: Sys, r: Id): Option<seq<Event>> {
    if r in s.locks && s.locks[r] in s.procs && s.procs[s.locks[r]].Writing?
    then Outcome(h, s.store, s.log, r, s.procs[s.locks[r]].todo)
    else History(h, s.store, s.log, r)
  }

  ghost predicate On(e: Event, es: Option<seq<Event>>) {
    es.Some? && e in es.value
  }

  /** Stored and planned events belong to the settled history of their run, and every lineage parent
      in a settled history is linked. */
  ghost predicate NoOrphans(h: RunHashes, s: Sys) {
    && (forall k :: k in s.log.events ==> On(s.log.events[k], Settled(h, s, s.log.events[k].basis.run)))
    && (forall p :: p in s.procs ==> PlannedOn(h, s, s.procs[p]))
    && (forall r :: Linked(Settled(h, s, r)))
  }

  ghost predicate PlannedOn(h: RunHashes, s: Sys, proc: Proc) {
    proc.Writing? ==> forall i :: 0 <= i < |proc.todo| && proc.todo[i].PutEvent? ==>
      On(proc.todo[i].event, Settled(h, s, proc.run))
  }

  ghost predicate Linked(es: Option<seq<Event>>) {
    es.Some? ==> ParentsLinked(es.value)
  }

  lemma NoOrphansCarries(h: RunHashes, s: Sys, s': Sys)
    requires NoOrphans(h, s)
    requires forall r :: Settled(h, s', r) == Settled(h, s, r)
    requires forall k :: k in s'.log.events ==>
      (k in s.log.events && s'.log.events[k] == s.log.events[k])
        || On(s'.log.events[k], Settled(h, s, s'.log.events[k].basis.run))
    requires forall p :: p in s'.procs ==>
      s'.procs[p].Holding? || (p in s.procs && s.procs[p].Writing? && s'.procs[p].run == s.procs[p].run &&
        forall w :: w in s'.procs[p].todo ==> w in s.procs[p].todo)
    ensures NoOrphans(h, s')
  {
    hide Settled, Linked, On;
    forall p | p in s'.procs && s'.procs[p].Writing? ensures PlannedOn(h, s', s'.procs[p]) {
      assert PlannedOn(h, s, s.procs[p]);
      forall i | 0 <= i < |s'.procs[p].todo| && s'.procs[p].todo[i].PutEvent?
        ensures On(s'.procs[p].todo[i].event, Settled(h, s', s'.procs[p].run))
      {
        assert s'.procs[p].todo[i] in s.procs[p].todo;
        var j :| 0 <= j < |s.procs[p].todo| && s.procs[p].todo[j] == s'.procs[p].todo[i];
      }
    }
    forall r ensures Linked(Settled(h, s', r)) {
      assert Linked(Settled(h, s, r));
    }
  }

  lemma LockKeepsNoOrphans(h: RunHashes, s: Sys, a: Action, s': Sys)
    requires Inv(h, s) && NoOrphans(h, s) && Step(h, s, a, s') && (a.Acquire? || a.Finish?)
    ensures NoOrphans(h, s')
  {
    hide LogInv, StoreSound, GoodPlan, History, NoOrphans;
    forall r ensures Settled(h, s', r) == Settled(h, s, r) {
    }
    NoOrphansCarries(h, s, s');
  }

  lemma ReleaseKeepsNoOrphans(h: RunHashes, s: Sys, p: Pid, s': Sys)
    requires Inv(h, s) && NoOrphans(h, s) && p in s.procs && s.procs[p].Holding? && s' == Released(s, p)
    ensures NoOrphans(h, s')
  {
    hide LogInv, StoreSound, GoodPlan, History, NoOrphans;
    forall r ensures Settled(h, s', r) == Settled(h, s, r) {
    }
    NoOrphansCarries(h, s, s');
  }

  lemma StoreKeepsNoOrphans(h: RunHashes, s: Sys, v: Store, s': Sys)
    requires Inv(h, s) && NoOrphans(h, s) && Step(h, s, StoreGrows(v), s')
    ensures NoOrphans(h, s')
  {
    hide NoOrphans, Step, Inv;
    StoreStepOnly(h, s, v, s');
    forall r ensures Settled(h, s', r) == Settled(h, s, r) {
      SettledUnderStore(h, s, v, r);
    }
    NoOrphansCarries(h, s, s');
  }

  lemma StoreStepOnly(h: RunHashes, s: Sys, v: Store, s': Sys)
    requires Step(h, s, StoreGrows(v), s')
    ensures s' == s.(store := v) && Grows(s.store, v)
  {
  }

  lemma SettledUnderStore(h: RunHashes, s: Sys, v: Store, r: Id)
    requires Inv(h, s) && Grows(s.store, v)
    ensures Settled(h, s.(store := v), r) == Settled(h, s, r)
  {
    hide StoreSound, Pending, EventStored;
    SubLogReflexive(s.log);
    if r in s.locks && s.procs[s.locks[r]].Writing? && s.procs[s.locks[r]].todo != [] {
      assert GoodPlan(h, s.store, s.log, r, s.procs[s.locks[r]].todo);
      OutcomeStable(h, s.store, v, s.log, s.log, r, s.procs[s.locks[r]].todo);
    } else if r in s.log.heads {
      HistoryStable(h, s.store, v, s.log, s.log, r);
    }
  }

  lemma PerformKeepsNoOrphans(h: RunHashes, s: Sys, p: Pid, s': Sys)
    requires h.Sound() && Inv(h, s) && NoOrphans(h, s) && Step(h, s, Perform(p), s')
    ensures NoOrphans(h, s')
  {
    forall r ensures Settled(h, s', r) == Settled(h, s, r) {
      SettledUnderPerform(h, s, p, s', r);
    }
    PerformWrites(h, s, p, s');
    hide NoOrphans, Step, Inv, Settled, On;
    NoOrphansCarries(h, s, s');
  }

  lemma PerformWrites(h: RunHashes, s: Sys, p: Pid, s': Sys)
    requires h.Sound() && Inv(h, s) && NoOrphans(h, s) && Step(h, s, Perform(p), s')
    ensures forall k :: k in s'.log.events ==>
      (k in s.log.events && s'.log.events[k] == s.log.events[k])
        || On(s'.log.events[k], Settled(h, s, s'.log.events[k].basis.run))
    ensures forall q :: q in s'.procs ==>
      s'.procs[q].Holding? || (q in s.procs && s.procs[q].Writing? && s'.procs[q].run == s.procs[q].run &&
        forall w :: w in s'.procs[q].todo ==> w in s.procs[q].todo)
  {
    hide LogInv, StoreSound, Settled, Linked, On, Outcome;
    var w := s.procs[p].todo[0];
    assert GoodPlan(h, s.store, s.log, s.procs[p].run, s.procs[p].todo);
    if w.PutEvent? {
      assert GoodWrite(h, s.store, s.procs[p].run, w);
      assert PlannedOn(h, s, s.procs[p]);
      assert On(w.event, Settled(h, s, s.procs[p].run));
    }
  }

  lemma SettledUnderPerform(h: RunHashes, s: Sys, p: Pid, s': Sys, r: Id)
    requires h.Sound() && Inv(h, s) && Step(h, s, Perform(p), s')
    ensures Settled(h, s', r) == Settled(h, s, r)
  {
    hide LogInv, StoreSound, GoodPlan, Apply;
    PerformWrite(h, s.store, s.log, s.procs[p].run, s.procs[p].todo);
    if r != s.procs[p].run {
      if r in s.locks && s.procs[s.locks[r]].Writing? && s.procs[s.locks[r]].todo != [] {
        assert s.locks[r] != p;
        assert GoodPlan(h, s.store, s.log, r, s.procs[s.locks[r]].todo);
        OthersSettled(h, s.store, s.log, s'.log, s.procs[p].run, r, s.procs[s.locks[r]].todo);
      } else {
        OthersHistory(h, s.store, s.log, s'.log, s.procs[p].run, r);
      }
    }
  }

  lemma OthersSettled(h: RunHashes, v: Store, log: Log, log': Log, run: Id, other: Id, todo: seq<Write>)
    requires LogGrows(h, v, v, log, log') && SameElsewhere(run, log, log') && other != run
    requires GoodPlan(h, v, log, other, todo) && todo != []
    ensures Outcome(h, v, log', other, todo) == Outcome(h, v, log, other, todo)
  {
    GrowsReflexive(v);
    PlanStable(h, v, v, log, log', other, todo);
  }

  lemma OthersHistory(h: RunHashes, v: Store, log: Log, log': Log, run: Id, other: Id)
    requires LogGrows(h, v, v, log, log') && SameElsewhere(run, log, log') && other != run && LogInv(h, v, log)
    ensures History(h, v, log', other) == History(h, v, log, other)
  {
    GrowsReflexive(v);
    if other in log.heads { HistoryStable(h, v, v, log, log', other); }
  }

  // ----- planning under the lock, with no orphans around -----

  /** All stored events of the run are in its history, and their parents are linked. */
  ghost predicate Clean(h: RunHashes, v: Store, log: Log, run: Id) {
    && (forall k :: k in log.events && log.events[k].basis.run == run ==> On(log.events[k], History(h, v, log, run)))
    && Linked(History(h, v, log, run))
  }

  /** A plan made on a clean run settles clean. */
  ghost predicate SettlesClean(h: RunHashes, v: Store, log: Log, run: Id, todo: seq<Write>) {
    var es := Outcome(h, v, log, run, todo);
    && (forall k :: k in log.events && log.events[k].basis.run == run ==> On(log.events[k], es))
    && (forall i :: 0 <= i < |todo| && todo[i].PutEvent? ==> On(todo[i].event, es))
    && Linked(es)
  }

  lemma AppendSettles(h: RunHashes, v: Store, log: Log, q: AppendRequest)
    requires h.Sound() && LogInv(h, v, log) && PlanEvent(h, v, log, q).Ok? && Clean(h, v, log, q.run)
    ensures SettlesClean(h, v, log, q.run, PlanAppend(h, v, log, q).value)
  {
    hide PlanEvent, LogInv, History, GoodPlan, Outcome, EventValid;
    var e := PlanEvent(h, v, log, q).value;
    AppendPlansWell(h, v, log, q);
    AppendHistory(h, v, log, q);
    var current := History(h, v, log, q.run).value;
    ParentsOfAppend(h, v, log, q);
    ParentsLinkedExtends(current, e);
    assert forall x :: x in current ==> x in current + [e];
    assert e in current + [e];
  }

  /** On a clean run the parents an append accepts are events of the history. */
  lemma ParentsOfAppend(h: RunHashes, v: Store, log: Log, q: AppendRequest)
    requires h.Sound() && LogInv(h, v, log) && PlanEvent(h, v, log, q).Ok? && Clean(h, v, log, q.run)
    requires History(h, v, log, q.run).Some?
    ensures forall p :: p in PlanEvent(h, v, log, q).value.basis.parents ==> exists j ::
      0 <= j < |History(h, v, log, q.run).value| && History(h, v, log, q.run).value[j].id == p
  {
    hide PlanEvent, History, EventValid, LogInv;
    var e := PlanEvent(h, v, log, q).value;
    PlannedEventValid(h, v, log, q);
    ParentsAccepted(h, v, log, q.run, e.basis.sequence, e.basis.parents);
    forall p | p in e.basis.parents
      ensures exists j :: 0 <= j < |History(h, v, log, q.run).value| && History(h, v, log, q.run).value[j].id == p
    {
      assert On(log.events[p], History(h, v, log, q.run));
      var j :| 0 <= j < |History(h, v, log, q.run).value| && History(h, v, log, q.run).value[j] == log.events[p];
    }
  }

  lemma ParentsLinkedExtends(es: seq<Event>, e: Event)
    requires ParentsLinked(es)
    requires forall p :: p in e.basis.parents ==> exists j :: 0 <= j < |es| && es[j].id == p
    ensures ParentsLinked(es + [e])
  {
    var all := es + [e];
    forall i, p | 0 <= i < |all| && p in all[i].basis.parents ensures exists j :: 0 <= j < i && all[j].id == p {
      if i < |es| {
        var j :| 0 <= j < i && es[j].id == p;
        assert all[j].id == p;
      } else {
        var j :| 0 <= j < |es| && es[j].id == p;
        assert all[j].id == p;
      }
    }
  }

  lemma CreateSettles(h: RunHashes, v: Store, log: Log, basis: RunBasis)
    requires LogInv(h, v, log) && PlanCreate(h, v, log, basis).Ok? && Clean(h, v, log, h.run(basis))
    ensures SettlesClean(h, v, log, h.run(basis), PlanCreate(h, v, log, basis).value)
  {
    CreatePlansWell(h, v, log, basis);
    forall k | k in log.events && log.events[k].basis.run == h.run(basis)
      ensures PlanCreate(h, v, log, basis).value == []
    {
      assert EventStored(h, v, log, k);
    }
  }

  lemma {:induction false} MissingEventsMembers(events: map<Id, Event>, es: seq<Event>, i: nat)
    requires i < |MissingEvents(events, es)|
    ensures MissingEvents(events, es)[i].PutEvent? && MissingEvents(events, es)[i].event in es
  {
    if es[0].id in events {
      MissingEventsMembers(events, es[1..], i);
    } else if i > 0 {
      MissingEventsMembers(events, es[1..], i - 1);
    }
  }

  lemma ImportSettles(h: RunHashes, v: Store, log: Log, rs: RecordSet)
    requires h.Sound() && LogInv(h, v, log) && PlanImport(h, v, log, rs).Ok? && Clean(h, v, log, rs.run.id)
    ensures SettlesClean(h, v, log, rs.run.id, PlanImport(h, v, log, rs).value)
  {
    ImportPlansWell(h, v, log, rs);
    ImportIsChain(h, v, rs);
    ImportKeepsStored(h, v, log, rs);
    ImportPlanMembers(h, v, log, rs);
    hide PlanImport, LogInv, History, GoodPlan, Outcome, ImportOrder;
  }

  lemma ImportPlanMembers(h: RunHashes, v: Store, log: Log, rs: RecordSet)
    requires PlanImport(h, v, log, rs).Ok?
    ensures
      var todo := PlanImport(h, v, log, rs).value;
      forall i :: 0 <= i < |todo| && todo[i].PutEvent? ==> todo[i].event in ImportOrder(rs)
  {
    hide History, ImportShape, ImportOrder;
    var todo := PlanImport(h, v, log, rs).value;
    var es := ImportOrder(rs);
    var body := MissingEvents(log.events, es);
    forall i | 0 <= i < |todo| && todo[i].PutEvent? ensures todo[i].event in es {
      if rs.run.id in log.runs {
        assert todo[i] == body[i];
        MissingEventsMembers(log.events, es, i);
      } else {
        assert todo[i] == body[i - 1];
        MissingEventsMembers(log.events, es, i - 1);
      }
    }
  }

  lemma ImportKeepsStored(h: RunHashes, v: Store, log: Log, rs: RecordSet)
    requires h.Sound() && LogInv(h, v, log) && PlanImport(h, v, log, rs).Ok? && Clean(h, v, log, rs.run.id)
    ensures forall k :: k in log.events && log.events[k].basis.run == rs.run.id ==> log.events[k] in ImportOrder(rs)
  {
    hide ImportOrder, ImportShape, Back, EventValid, RunValid;
    forall k | k in log.events && log.events[k].basis.run == rs.run.id ensures log.events[k] in ImportOrder(rs) {
      assert EventStored(h, v, log, k);
      assert On(log.events[k], History(h, v, log, rs.run.id));
      ImportExtends(h, v, log, rs);
      var current := History(h, v, log, rs.run.id).value;
      var j :| 0 <= j < |current| && current[j] == log.events[k];
      assert ImportOrder(rs)[j] == current[j];
    }
  }

  lemma PlanSettles(h: RunHashes, v: Store, log: Log, op: Op)
    requires h.Sound() && LogInv(h, v, log) && Plan(h, v, log, op).Ok? && Clean(h, v, log, Target(h, op))
    ensures SettlesClean(h, v, log, Target(h, op), Plan(h, v, log, op).value)
  {
    hide SettlesClean, LogInv, Clean;
    match op
    case Create(basis) => CreateSettles(h, v, log, basis);
    case Append(q) => AppendSettles(h, v, log, q);
    case Import(rs) => ImportSettles(h, v, log, rs);
  }

  lemma BeginKeepsNoOrphans(h: RunHashes, s: Sys, p: Pid, op: Op, s': Sys)
    requires h.Sound() && Inv(h, s) && NoOrphans(h, s) && Step(h, s, Begin(p, op), s')
    ensures NoOrphans(h, s')
  {
    hide Plan, LogInv, StoreSound, GoodPlan, Outcome, History, On, Linked;
    var run := Target(h, op);
    if Plan(h, s.store, s.log, op).Err? {
      ReleaseKeepsNoOrphans(h, s, p, s');
    } else {
      var todo := Plan(h, s.store, s.log, op).value;
      assert Settled(h, s, run) == History(h, s.store, s.log, run);
      assert Clean(h, s.store, s.log, run);
      PlanSettles(h, s.store, s.log, op);
      assert Settled(h, s', run) == Outcome(h, s.store, s.log, run, todo);
      forall r | r != run ensures Settled(h, s', r) == Settled(h, s, r) {
      }
      forall q | q in s'.procs && q != p ensures PlannedOn(h, s', s'.procs[q]) {
        assert PlannedOn(h, s, s.procs[q]);
      }
      forall r ensures Linked(Settled(h, s', r)) {
        assert Linked(Settled(h, s, r));
      }
    }
  }

  lemma StepKeepsNoOrphans(h: RunHashes, s: Sys, a: Action, s': Sys)
    requires h.Sound() && Inv(h, s) && NoOrphans(h, s) && Step(h, s, a, s') && !a.Crash?
    ensures NoOrphans(h, s')
  {
    hide Inv, NoOrphans, Step;
    match a
    case Acquire(p, run) => LockKeepsNoOrphans(h, s, a, s');
    case Begin(p, op) => BeginKeepsNoOrphans(h, s, p, op, s');
    case Perform(p) => PerformKeepsNoOrphans(h, s, p, s');
    case Finish(p) => LockKeepsNoOrphans(h, s, a, s');
    case StoreGrows(v) => StoreKeepsNoOrphans(h, s, v, s');
  }

  ghost predicate CrashFree(acts: seq<Action>) {
    forall i :: 0 <= i < |acts| ==> !acts[i].Crash?
  }

  lemma InitHasNoOrphans(h: RunHashes, s: Sys)
    requires Init(h, s)
    ensures NoOrphans(h, s)
  {
  }

  lemma {:induction false} ReachableNoOrphans(h: RunHashes, trace: seq<Sys>, acts: seq<Action>, i: nat)
    requires h.Sound() && Behaviour(h, trace, acts) && CrashFree(acts) && i < |trace|
    ensures NoOrphans(h, trace[i])
  {
    hide NoOrphans, Inv, Step, Init;
    if i == 0 {
      InitHasNoOrphans(h, trace[0]);
    } else {
      ReachableNoOrphans(h, trace, acts, i - 1);
      Reachable(h, trace, acts, i - 1);
      StepKeepsNoOrphans(h, trace[i - 1], acts[i - 1], trace[i]);
    }
  }

  /** Every stored record a run binds can be read. */
  lemma BoundReadable(h: RunHashes, v: Store, log: Log, run: Id)
    requires StoreSound(h.store, v) && LogInv(h, v, log) && run in log.heads
    ensures History(h, v, log, run).Some?
    ensures BoundObjectsReadable(h, v, log.runs[run], History(h, v, log, run).value)
  {
    hide History;
    HistoryStored(h, v, log, run);
    var es := History(h, v, log, run).value;
    forall i, f | 0 <= i < |es| && f in es[i].basis.files ensures Readable(h.store, v, f) {
      assert HasEvent(h, v, log.events, es[i].id);
    }
  }

  /** Apart from unlinked parents nothing can make `verify_run` fail. */
  lemma VerifyIffLinked(h: RunHashes, v: Store, log: Log, run: Id)
    requires StoreSound(h.store, v) && LogInv(h, v, log) && run in log.heads
    ensures History(h, v, log, run).Some?
    ensures VerifyRunAccepts(h, v, log, run) <==> ParentsLinked(History(h, v, log, run).value)
  {
    hide StoreSound, EventValid, EventStored, RunValid, Verifies, History, StoredChain;
    HistoryStored(h, v, log, run);
    BoundReadable(h, v, log, run);
    VerifiesIffLinked(h, v, log.events, log.runs[run], History(h, v, log, run).value);
  }

  /** Without crashes every run with a HEAD verifies whenever its lock is free. */
  lemma CrashFreeRunsVerify(h: RunHashes, trace: seq<Sys>, acts: seq<Action>, i: nat, run: Id)
    requires h.Sound() && Behaviour(h, trace, acts) && CrashFree(acts) && i < |trace|
    requires run in trace[i].log.heads && run !in trace[i].locks
    ensures VerifyRunAccepts(h, trace[i].store, trace[i].log, run)
  {
    var s := trace[i];
    Reachable(h, trace, acts, i);
    ReachableNoOrphans(h, trace, acts, i);
    assert Linked(Settled(h, s, run));
    VerifyIffLinked(h, s.store, s.log, run);
  }

  // ----- what a crash can leave behind -----

  lemma HistoryAfterAppend(h: RunHashes, v: Store, log: Log, q: AppendRequest)
    requires h.Sound() && LogInv(h, v, log) && PlanEvent(h, v, log, q).Ok?
    ensures
      var e := PlanEvent(h, v, log, q).value;
      var log' := ApplyAll(log, PlanAppend(h, v, log, q).value);
      && log' == log.(events := log.events[e.id := e], heads := log.heads[q.run := Head(Some(e.id), e.basis.sequence)])
      && History(h, v, log, q.run).Some?
      && History(h, v, log', q.run) == Some(History(h, v, log, q.run).value + [e])
  {
    hide PlanEvent, EventValid, LogInv, Back, HeadShape;
    var e := PlanEvent(h, v, log, q).value;
    PlannedEventValid(h, v, log, q);
    AppendHistory(h, v, log, q);
    var last := PutHead(q.run, Head(Some(e.id), e.basis.sequence));
    AppendPending(log.events, e, last);
    AppendApplied(log, e, last);
  }

  lemma AppendApplied(log: Log, e: Event, last: Write)
    requires last.PutHead? && (e.id in log.events ==> log.events[e.id] == e)
    ensures ApplyAll(log, (if e.id in log.events then [] else [PutEvent(e)]) + [last])
         == log.(events := log.events[e.id := e], heads := log.heads[last.target := last.head])
  {
    var log' := log.(events := log.events[e.id := e]);
    assert ApplyAll(log', [last]) == ApplyAll(Apply(log', last), []);
    if e.id in log.events {
      assert log' == log && [] + [last] == [last];
    } else {
      assert ([PutEvent(e)] + [last])[1..] == [last];
    }
  }

  /** An append keeps a verified run verifiable exactly when the parents the caller names are
      listed events of the run.  (A caller that names none is always safe.) */
  lemma AppendStaysVerifiableIff(h: RunHashes, v: Store, log: Log, q: AppendRequest)
    requires h.Sound() && StoreSound(h.store, v) && LogInv(h, v, log) && PlanEvent(h, v, log, q).Ok?
    requires q.run in log.heads && VerifyRunAccepts(h, v, log, q.run)
    ensures
      VerifyRunAccepts(h, v, ApplyAll(log, PlanAppend(h, v, log, q).value), q.run)
      <==> (q.parents.None? || forall p :: p in q.parents.value ==> p in IdsOf(History(h, v, log, q.run).value))
  {
    hide PlanEvent, LogInv, History, StoreSound, VerifyRunAccepts, ParentsLinked;
    var e := PlanEvent(h, v, log, q).value;
    HistoryAfterAppend(h, v, log, q);
    VerifyIffLinked(h, v, log, q.run);
    AppendKeepsLogInv(h, v, log, q);
    VerifyIffLinked(h, v, ApplyAll(log, PlanAppend(h, v, log, q).value), q.run);
    AppendedParents(h, v, log, q);
    LinkedIffParentsListed(History(h, v, log, q.run).value, e);
  }

  lemma AppendKeepsLogInv(h: RunHashes, v: Store, log: Log, q: AppendRequest)
    requires h.Sound() && LogInv(h, v, log) && PlanEvent(h, v, log, q).Ok?
    ensures LogInv(h, v, ApplyAll(log, PlanAppend(h, v, log, q).value))
  {
    hide PlanEvent, LogInv, GoodPlan, Apply;
    AppendPlansWell(h, v, log, q);
    PlanKeepsLogInv(h, v, log, q.run, PlanAppend(h, v, log, q).value);
  }

  lemma {:induction false} PlanKeepsLogInv(h: RunHashes, v: Store, log: Log, run: Id, todo: seq<Write>)
    requires h.Sound() && LogInv(h, v, log) && GoodPlan(h, v, log, run, todo)
    ensures LogInv(h, v, ApplyAll(log, todo)) && LogGrows(h, v, v, log, ApplyAll(log, todo))
    decreases |todo|
  {
    hide LogInv, GoodPlan, Apply, LogGrows;
    if todo == [] {
      SameLogGrows(h, v, log);
    } else {
      PerformWrite(h, v, log, run, todo);
      PlanKeepsLogInv(h, v, Apply(log, todo[0]), run, todo[1..]);
      var a, b, c := Sys(v, log, map[], map[]), Sys(v, Apply(log, todo[0]), map[], map[]),
        Sys(v, ApplyAll(log, todo), map[], map[]);
      LogGrowsTransitive(h, a, b, c);
    }
  }

  lemma AppendedParents(h: RunHashes, v: Store, log: Log, q: AppendRequest)
    requires h.Sound() && LogInv(h, v, log) && PlanEvent(h, v, log, q).Ok? && q.run in log.heads
      && History(h, v, log, q.run).Some?
    ensures
      var e := PlanEvent(h, v, log, q).value;
      var ids := IdsOf(History(h, v, log, q.run).value);
      (forall p :: p in e.basis.parents ==> p in ids)
        <==> (q.parents.None? || forall p :: p in q.parents.value ==> p in ids)
  {
    hide LogInv, PlanEvent, History, SortedRefs, StoredChain, HeadShape;
    var e := PlanEvent(h, v, log, q).value;
    var ids := IdsOf(History(h, v, log, q.run).value);
    var head := log.heads[q.run];
    HistoryStored(h, v, log, q.run);
    PlannedParents(h, v, log, q);
    if q.parents.Some? {
      SortedRefsAscend(q.parents.value);
      assert forall p :: p in e.basis.parents <==> p in multiset(e.basis.parents);
      assert forall p :: p in q.parents.value <==> p in multiset(q.parents.value);
    } else if head.event.Some? {
      assert ids[|ids| - 1] == head.event.value;
    }
  }

  lemma PlannedParents(h: RunHashes, v: Store, log: Log, q: AppendRequest)
    requires PlanEvent(h, v, log, q).Ok? && q.run in log.heads
    ensures ChosenParents(q, log.heads[q.run]) == Ok(PlanEvent(h, v, log, q).value.basis.parents)
  {
    hide HasRun, HasFile, HasEvent, ParentObjection, SortedRefs, HeadShape;
  }

  lemma LinkedIffParentsListed(es: seq<Event>, e: Event)
    requires ParentsLinked(es)
    ensures ParentsLinked(es + [e]) <==> forall p :: p in e.basis.parents ==> p in IdsOf(es)
  {
    var ids, all := IdsOf(es), es + [e];
    if forall p :: p in e.basis.parents ==> p in ids {
      forall p | p in e.basis.parents ensures exists j :: 0 <= j < |es| && es[j].id == p {
        var j :| 0 <= j < |ids| && ids[j] == p;
        assert es[j].id == p;
      }
      ParentsLinkedExtends(es, e);
    }
    if ParentsLinked(all) {
      forall p | p in e.basis.parents ensures p in ids {
        assert p in all[|es|].basis.parents;
        var j :| 0 <= j < |es| && all[j].id == p;
        assert ids[j] == p;
      }
    }
  }

  /** Some event record of the run is on disk. */
  ghost predicate HasEvents(log: Log, run: Id) {
    exists k :: k in log.events && log.events[k].basis.run == run
  }

  /** The process still has writes outstanding to the run. */
  ghost predicate AtWork(s: Sys, run: Id, p: Pid) {
    p in s.procs && s.procs[p].Writing? && s.procs[p].run == run && s.procs[p].todo != []
  }

  /** A run record whose import died between an event and the HEAD. */
  ghost predicate Stranded(s: Sys, run: Id) {
    && run in s.log.runs && run !in s.log.heads && HasEvents(s.log, run)
    && forall p :: !AtWork(s, run, p)
  }

  /** A write strands its run by dying exactly when the run record is written, the HEAD is not, and an event is. */
  lemma CrashStrands(h: RunHashes, s: Sys, p: Pid, s': Sys)
    requires Inv(h, s) && Step(h, s, Crash(p), s') && s.procs[p].Writing? && s.procs[p].todo != []
    ensures
      var run := s.procs[p].run;
      Stranded(s', run) <==> !s.procs[p].todo[0].PutRun? && run !in s.log.heads && HasEvents(s.log, run)
  {
    hide LogInv, StoreSound, HasEvents, Outcome;
    var run, todo := s.procs[p].run, s.procs[p].todo;
    assert GoodPlan(h, s.store, s.log, run, todo);
    assert todo[0].PutRun? ==> todo[0] != todo[|todo| - 1];
    forall q ensures !AtWork(s', run, q) {
      assert q in s'.procs ==> s.locks[s.procs[q].run] == q;
    }
  }

  /** When a run without HEAD can be resumed: while no event of it is on disk some operation on it, namely its
      own creation again, is accepted and gives it back an empty history; after that none is. */
  lemma ResumableIff(h: RunHashes, v: Store, log: Log, run: Id)
    requires h.Sound() && LogInv(h, v, log) && run in log.runs && run !in log.heads
    ensures (exists op :: Target(h, op) == run && Plan(h, v, log, op).Ok?) <==> !HasEvents(log, run)
    ensures !HasEvents(log, run) ==>
      var again := Create(log.runs[run].basis);
      && Target(h, again) == run && Plan(h, v, log, again).Ok?
      && History(h, v, ApplyAll(log, Plan(h, v, log, again).value), run) == Some([])
  {
    hide HasFile, HasSnapshot;
    if HasEvents(log, run) {
      var k :| k in log.events && log.events[k].basis.run == run;
      forall op | Target(h, op) == run ensures Plan(h, v, log, op).Err? { StrandedPlansFail(h, v, log, op, k); }
    } else {
      var again := Create(log.runs[run].basis);
      assert RunValid(h, v, log.runs[run]) && Target(h, again) == run;
      assert Plan(h, v, log, again) == Ok([PutHead(run, EmptyHead)]);
      assert ApplyAll(log, [PutHead(run, EmptyHead)]) == ApplyAll(Apply(log, PutHead(run, EmptyHead)), []);
    }
  }

  lemma StrandedPlansFail(h: RunHashes, v: Store, log: Log, op: Op, k: Id)
    requires LogInv(h, v, log) && Target(h, op) in log.runs && Target(h, op) !in log.heads
    requires k in log.events && log.events[k].basis.run == Target(h, op)
    ensures Plan(h, v, log, op).Err?
  {
    hide HasFile, HasEvent, HasRun, ImportShape, SortedRefs, ParentObjection, ImportOrder, RunValid;
    match op
    case Create(basis) =>
    case Append(q) =>
    case Import(rs) =>
  }

  lemma StrandedStep(h: RunHashes, s: Sys, a: Action, s': Sys, run: Id)
    requires h.Sound() && Inv(h, s) && Step(h, s, a, s') && Stranded(s, run)
    ensures Stranded(s', run)
  {
    hide LogInv, StoreSound, GoodPlan, Plan, Target;
    var k :| k in s.log.events && s.log.events[k].basis.run == run;
    match a {
      case Begin(p, op) =>
        if Target(h, op) == run { StrandedPlansFail(h, s.store, s.log, op, k); }
      case Perform(p) =>
        assert !AtWork(s, run, p);
        PerformWrite(h, s.store, s.log, s.procs[p].run, s.procs[p].todo);
      case _ =>
    }
    assert k in s'.log.events && s'.log.events[k].basis.run == run;
    forall q ensures !AtWork(s', run, q) { assert !AtWork(s, run, q); }
  }

  /** A fresh import that dies after its first event can never be resumed: no later operation, in any
      interleaving, gives the run a HEAD again. */
  lemma {:induction false} StrandedForever(h: RunHashes, trace: seq<Sys>, acts: seq<Action>, i: nat, j: nat, run: Id)
    requires h.Sound() && Behaviour(h, trace, acts) && i <= j < |trace| && Stranded(trace[i], run)
    ensures Stranded(trace[j], run) && run !in trace[j].log.heads
    decreases j - i
  {
    hide Step, Stranded;
    if i < j {
      StrandedForever(h, trace, acts, i, j - 1, run);
      Reachable(h, trace, acts, j - 1);
      StrandedStep(h, trace[j - 1], acts[j - 1], trace[j], run);
    }
    StrandedHasNoHead(trace[j], run);
  }

  lemma StrandedHasNoHead(s: Sys, run: Id)
    requires Stranded(s, run)
    ensures run !in s.log.heads
  {
  }
}
