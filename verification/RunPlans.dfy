/** What a planned list of writes promises about the run it targets, and why every plan keeps it. */
module RunPlans {
  import opened Common
  import opened Vault
  import opened RunLog
  import opened RunOps
  import Sorting

  /** What every reachable log satisfies between atomic writes. */
  ghost predicate LogInv(h: RunHashes, v: Store, log: Log) {
    && (forall k :: k in log.runs ==> log.runs[k].id == k && RunValid(h, v, log.runs[k]))
    && (forall k :: k in log.events ==> EventStored(h, v, log, k))
    && (forall k :: k in log.heads ==> k in log.runs && History(h, v, log, k).Some?)
  }

  ghost predicate EventStored(h: RunHashes, v: Store, log: Log, k: Id)
    requires k in log.events
  {
    log.events[k].id == k && EventValid(h, v, log.events[k]) && log.events[k].basis.run in log.runs
  }

  /** The event files once every event write of `todo` is done. */
  function Pending(events: map<Id, Event>, todo: seq<Write>): map<Id, Event>
    decreases |todo|
  {
    if todo == [] then events
    else Pending(if todo[0].PutEvent? then events[todo[0].event.id := todo[0].event] else events, todo[1..])
  }

  ghost predicate GoodWrite(h: RunHashes, v: Store, run: Id, w: Write) {
    match w
    case PutRun(r) => r.id == run && RunValid(h, v, r)
    case PutEvent(e) => e.basis.run == run && EventValid(h, v, e)
    case PutHead(_, _) => false
  }

  /** The history the plan ends with. */
  ghost function Outcome(h: RunHashes, v: Store, log: Log, run: Id, todo: seq<Write>): Option<seq<Event>> {
    if todo == [] then History(h, v, log, run)
    else if !todo[|todo| - 1].PutHead? then None
    else AtHead(h, v, Pending(log.events, todo), run, todo[|todo| - 1].head)
  }

  /** Only the last write moves the HEAD, and it moves it to an extension of the current history. */
  ghost predicate GoodPlan(h: RunHashes, v: Store, log: Log, run: Id, todo: seq<Write>) {
    todo != [] ==>
      && todo[|todo| - 1].PutHead? && todo[|todo| - 1].target == run
      && (forall i :: 0 <= i < |todo| - 1 ==>
        GoodWrite(h, v, run, todo[i]) && (todo[i].PutRun? ==> i == 0 && run !in log.runs))
      && (run in log.runs || todo[0].PutRun?)
      && Outcome(h, v, log, run, todo).Some?
      && (run in log.heads ==> Extends(History(h, v, log, run), Outcome(h, v, log, run, todo)))
  }

  ghost predicate Extends(a: Option<seq<Event>>, b: Option<seq<Event>>) {
    a.Some? && b.Some? && IsPrefix(a.value, b.value)
  }

  lemma {:induction false} PendingGrows(events: map<Id, Event>, events': map<Id, Event>, todo: seq<Write>)
    requires SubLog(events, events')
    ensures SubLog(Pending(events, todo), Pending(events', todo))
    decreases |todo|
  {
    if todo != [] {
      if todo[0].PutEvent? {
        var e := todo[0].event;
        PendingGrows(events[e.id := e], events'[e.id := e], todo[1..]);
      } else {
        PendingGrows(events, events', todo[1..]);
      }
    }
  }

  /** Writing an event never replaces a different one: equal identities come from equal contents. */
  lemma EventWriteGrows(h: RunHashes, v: Store, log: Log, e: Event)
    requires h.Sound() && LogInv(h, v, log) && EventValid(h, v, e)
    ensures SubLog(log.events, log.events[e.id := e])
  {
    if e.id in log.events {
      assert EventStored(h, v, log, e.id);
      assert h.event(log.events[e.id].basis) == h.event(e.basis);
    }
  }

  /** A plan survives whatever other runs and the store do meanwhile. */
  lemma PlanStable(h: RunHashes, v: Store, v': Store, log: Log, log': Log, run: Id, todo: seq<Write>)
    requires Grows(v, v') && SubLog(log.events, log'.events)
    requires GoodPlan(h, v, log, run, todo)
    requires run in log.runs <==> run in log'.runs
    requires run in log.heads <==> run in log'.heads
    requires run in log.heads ==> log'.heads[run] == log.heads[run]
    ensures GoodPlan(h, v', log', run, todo)
    ensures todo != [] ==> Outcome(h, v', log', run, todo) == Outcome(h, v, log, run, todo)
  {
    if todo != [] {
      OutcomeStable(h, v, v', log, log', run, todo);
      if run in log.heads { HistoryStable(h, v, v', log, log', run); }
      forall i | 0 <= i < |todo| - 1 ensures GoodWrite(h, v', run, todo[i]) {
        assert GoodWrite(h, v, run, todo[i]);
        WriteStable(h, v, v', run, todo[i]);
      }
    }
  }

  lemma WriteStable(h: RunHashes, v: Store, v': Store, run: Id, w: Write)
    requires Grows(v, v') && GoodWrite(h, v, run, w)
    ensures GoodWrite(h, v', run, w)
  {
    match w
    case PutRun(r) => RunValidGrows(h, v, v', r);
    case PutEvent(e) => EventValidGrows(h, v, v', e);
  }

  lemma OutcomeStable(h: RunHashes, v: Store, v': Store, log: Log, log': Log, run: Id, todo: seq<Write>)
    requires Grows(v, v') && SubLog(log.events, log'.events)
    requires todo != [] && Outcome(h, v, log, run, todo).Some?
    ensures Outcome(h, v', log', run, todo) == Outcome(h, v, log, run, todo)
  {
    var head := todo[|todo| - 1].head;
    PendingGrows(log.events, log'.events, todo);
    BackGrows(h, v, v', Pending(log.events, todo), Pending(log'.events, todo), run, head.event, head.sequence + 1);
  }

  lemma HistoryStable(h: RunHashes, v: Store, v': Store, log: Log, log': Log, run: Id)
    requires Grows(v, v') && SubLog(log.events, log'.events)
    requires History(h, v, log, run).Some?
    requires run in log'.heads && log'.heads[run] == log.heads[run]
    ensures History(h, v', log', run) == History(h, v, log, run)
  {
    BackGrows(h, v, v', log.events, log'.events, run, log.heads[run].event, log.heads[run].sequence + 1);
  }

  lemma GrowsReflexive(v: Store)
    ensures Grows(v, v)
  {
  }

  /** What one atomic write does: the invariant stays, the rest of the plan stays good and its outcome is
      unchanged, every history is kept or extended, and other runs are untouched. */
  lemma PerformWrite(h: RunHashes, v: Store, log: Log, run: Id, todo: seq<Write>)
    requires h.Sound() && LogInv(h, v, log) && GoodPlan(h, v, log, run, todo) && todo != []
    ensures var log' := Apply(log, todo[0]); LogInv(h, v, log')
    ensures var log' := Apply(log, todo[0]); GoodPlan(h, v, log', run, todo[1..])
    ensures var log' := Apply(log, todo[0]); Outcome(h, v, log', run, todo[1..]) == Outcome(h, v, log, run, todo)
    ensures var log' := Apply(log, todo[0]); LogGrows(h, v, v, log, log') && SameElsewhere(run, log, log')
  {
    GrowsReflexive(v);
    match todo[0]
    case PutRun(r) => PerformPutRun(h, v, log, run, todo);
    case PutEvent(e) => PerformPutEvent(h, v, log, run, todo);
    case PutHead(_, head) => PerformPutHead(h, v, log, run, todo);
  }

  /** Runs, events and histories are only ever added to. */
  ghost predicate LogGrows(h: RunHashes, v: Store, v': Store, log: Log, log': Log) {
    && (forall k :: k in log.runs ==> k in log'.runs && log'.runs[k] == log.runs[k])
    && SubLog(log.events, log'.events)
    && (forall k :: k in log.heads ==> k in log'.heads && Extends(History(h, v, log, k), History(h, v', log', k)))
  }

  ghost predicate SameElsewhere(run: Id, log: Log, log': Log) {
    && (forall k :: k != run ==> (k in log.runs <==> k in log'.runs) && (k in log.heads <==> k in log'.heads))
    && (forall k :: k != run && k in log.heads ==> log'.heads[k] == log.heads[k])
    && (forall k :: k in log'.events && k !in log.events ==> log'.events[k].basis.run == run)
  }

  lemma SameHistories(h: RunHashes, v: Store, log: Log, log': Log)
    requires LogInv(h, v, log) && SubLog(log.events, log'.events)
    requires forall k :: k in log.heads ==> k in log'.heads && log'.heads[k] == log.heads[k]
    ensures forall k :: k in log.heads ==>
      History(h, v, log', k) == History(h, v, log, k) && Extends(History(h, v, log, k), History(h, v, log', k))
  {
    GrowsReflexive(v);
    forall k | k in log.heads
      ensures History(h, v, log', k) == History(h, v, log, k) && Extends(History(h, v, log, k), History(h, v, log', k))
    {
      HistoryStable(h, v, v, log, log', k);
    }
  }

  lemma PerformPutRun(h: RunHashes, v: Store, log: Log, run: Id, todo: seq<Write>)
    requires h.Sound() && LogInv(h, v, log) && GoodPlan(h, v, log, run, todo) && todo != [] && todo[0].PutRun?
    ensures var log' := Apply(log, todo[0]); LogInv(h, v, log')
    ensures var log' := Apply(log, todo[0]); GoodPlan(h, v, log', run, todo[1..])
    ensures var log' := Apply(log, todo[0]); Outcome(h, v, log', run, todo[1..]) == Outcome(h, v, log, run, todo)
    ensures var log' := Apply(log, todo[0]); LogGrows(h, v, v, log, log') && SameElsewhere(run, log, log')
  {
    hide EventValid, RunValid, Back, HeadShape;
    var log' := Apply(log, todo[0]);
    assert GoodWrite(h, v, run, todo[0]);
    SameHistories(h, v, log, log');
    forall k | k in log'.events ensures EventStored(h, v, log', k) { assert EventStored(h, v, log, k); }
    RestOfPlan(h, v, log, log', run, todo);
  }

  /** Dropping a performed run or event write leaves a good plan with the same outcome. */
  lemma RestOfPlan(h: RunHashes, v: Store, log: Log, log': Log, run: Id, todo: seq<Write>)
    requires GoodPlan(h, v, log, run, todo) && todo != [] && !todo[0].PutHead?
    requires log'.events == if todo[0].PutEvent? then log.events[todo[0].event.id := todo[0].event] else log.events
    requires run in log'.runs
    requires run in log.heads <==> run in log'.heads
    requires run in log.heads ==> History(h, v, log', run) == History(h, v, log, run)
    ensures GoodPlan(h, v, log', run, todo[1..])
    ensures Outcome(h, v, log', run, todo[1..]) == Outcome(h, v, log, run, todo)
  {
    hide EventValid, RunValid, Back, HeadShape, GoodWrite, History;
    var rest := todo[1..];
    assert |rest| > 0 && rest[|rest| - 1] == todo[|todo| - 1];
    assert Pending(log'.events, rest) == Pending(log.events, todo);
    forall i | 0 <= i < |rest| - 1 ensures GoodWrite(h, v, run, rest[i]) && !rest[i].PutRun? {
      assert rest[i] == todo[i + 1];
    }
  }

  lemma PerformPutEvent(h: RunHashes, v: Store, log: Log, run: Id, todo: seq<Write>)
    requires h.Sound() && LogInv(h, v, log) && GoodPlan(h, v, log, run, todo) && todo != [] && todo[0].PutEvent?
    ensures var log' := Apply(log, todo[0]); LogInv(h, v, log')
    ensures var log' := Apply(log, todo[0]); GoodPlan(h, v, log', run, todo[1..])
    ensures var log' := Apply(log, todo[0]); Outcome(h, v, log', run, todo[1..]) == Outcome(h, v, log, run, todo)
    ensures var log' := Apply(log, todo[0]); LogGrows(h, v, v, log, log') && SameElsewhere(run, log, log')
  {
    hide EventValid, RunValid, Back, HeadShape;
    var log' := Apply(log, todo[0]);
    var e := todo[0].event;
    assert GoodWrite(h, v, run, todo[0]);
    EventWriteGrows(h, v, log, e);
    SameHistories(h, v, log, log');
    forall k | k in log'.events ensures EventStored(h, v, log', k) {
      if k != e.id { assert EventStored(h, v, log, k); }
    }
    RestOfPlan(h, v, log, log', run, todo);
  }

  lemma PerformPutHead(h: RunHashes, v: Store, log: Log, run: Id, todo: seq<Write>)
    requires h.Sound() && LogInv(h, v, log) && GoodPlan(h, v, log, run, todo) && todo != [] && todo[0].PutHead?
    ensures var log' := Apply(log, todo[0]); LogInv(h, v, log')
    ensures var log' := Apply(log, todo[0]); GoodPlan(h, v, log', run, todo[1..])
    ensures var log' := Apply(log, todo[0]); Outcome(h, v, log', run, todo[1..]) == Outcome(h, v, log, run, todo)
    ensures var log' := Apply(log, todo[0]); LogGrows(h, v, v, log, log') && SameElsewhere(run, log, log')
  {
    hide EventValid, RunValid, Back, HeadShape;
    var log' := Apply(log, todo[0]);
    assert !GoodWrite(h, v, run, todo[0]);
    assert |todo| == 1;
    assert Pending(log.events, todo) == log.events;
    assert History(h, v, log', run) == Outcome(h, v, log, run, todo);
    forall k | k in log'.events ensures EventStored(h, v, log', k) { assert EventStored(h, v, log, k); }
    forall k | k in log.heads && k != run ensures History(h, v, log', k) == History(h, v, log, k) {
    }
    forall k | k in log.heads ensures Extends(History(h, v, log, k), History(h, v, log', k)) {
    }
  }

  /** A run with a HEAD has a stored history. */
  lemma HistoryStored(h: RunHashes, v: Store, log: Log, run: Id)
    requires LogInv(h, v, log) && run in log.heads
    ensures run in log.runs && log.runs[run].id == run && HeadShape(log.heads[run])
    ensures History(h, v, log, run).Some? && StoredChain(h, v, log.events, run, History(h, v, log, run).value)
    ensures log.heads[run].event == IdBefore(History(h, v, log, run).value, |History(h, v, log, run).value|)
    ensures |History(h, v, log, run).value| == log.heads[run].sequence + 1
  {
    BackChained(h, v, log.events, run, log.heads[run].event, log.heads[run].sequence + 1);
  }

  // ----- every operation plans well -----

  lemma AppendPlansWell(h: RunHashes, v: Store, log: Log, q: AppendRequest)
    requires h.Sound() && LogInv(h, v, log) && PlanEvent(h, v, log, q).Ok?
    ensures
      var e := PlanEvent(h, v, log, q).value;
      var todo := PlanAppend(h, v, log, q).value;
      && EventValid(h, v, e) && e.basis.run == q.run && q.run in log.heads
      && GoodPlan(h, v, log, q.run, todo)
      && Outcome(h, v, log, q.run, todo) == Some(History(h, v, log, q.run).value + [e])
  {
    hide PlanEvent, EventValid, RunValid, LogInv, History, AtHead, Pending, HeadShape, GoodWrite, ParentObjection;
    var e := PlanEvent(h, v, log, q).value;
    var todo := PlanAppend(h, v, log, q).value;
    PlannedEventValid(h, v, log, q);
    AppendHistory(h, v, log, q);
    assert todo[|todo| - 1] == PutHead(q.run, Head(Some(e.id), e.basis.sequence));
    forall i | 0 <= i < |todo| - 1 ensures GoodWrite(h, v, q.run, todo[i]) && !todo[i].PutRun? {
      assert todo[i] == PutEvent(e);
      PutEventIsGood(h, v, e);
    }
  }

  lemma PutEventIsGood(h: RunHashes, v: Store, e: Event)
    requires EventValid(h, v, e)
    ensures GoodWrite(h, v, e.basis.run, PutEvent(e))
  {
  }

  lemma AppendHistory(h: RunHashes, v: Store, log: Log, q: AppendRequest)
    requires h.Sound() && LogInv(h, v, log) && PlanEvent(h, v, log, q).Ok?
    ensures
      var e := PlanEvent(h, v, log, q).value;
      var events' := Pending(log.events, PlanAppend(h, v, log, q).value);
      && q.run in log.runs && q.run in log.heads && History(h, v, log, q.run).Some?
      && HeadShape(Head(Some(e.id), e.basis.sequence))
      && AtHead(h, v, events', q.run, Head(Some(e.id), e.basis.sequence)) == Some(History(h, v, log, q.run).value + [e])
  {
    hide PlanEvent, EventValid, RunValid, Pending, ParentObjection;
    var e := PlanEvent(h, v, log, q).value;
    PlannedEventValid(h, v, log, q);
    EventWriteGrows(h, v, log, e);
    GrowsReflexive(v);
    var head := log.heads[q.run];
    var events' := log.events[e.id := e];
    AppendPending(log.events, e, PutHead(q.run, Head(Some(e.id), e.basis.sequence)));
    BackGrows(h, v, v, log.events, events', q.run, head.event, head.sequence + 1);
    AppendOutcome(h, v, events', q.run, head, e);
  }

  lemma AppendPending(events: map<Id, Event>, e: Event, last: Write)
    requires last.PutHead? && (e.id in events ==> events[e.id] == e)
    ensures Pending(events, (if e.id in events then [] else [PutEvent(e)]) + [last]) == events[e.id := e]
  {
    var done := events[e.id := e];
    assert Pending(done, [last]) == Pending(done, []) == done;
    if e.id in events {
      assert done == events && [] + [last] == [last];
    } else {
      assert ([PutEvent(e)] + [last])[1..] == [last];
    }
  }

  lemma AppendOutcome(h: RunHashes, v: Store, events: map<Id, Event>, run: Id, head: Head, e: Event)
    requires HeadShape(head) && Back(h, v, events, run, head.event, head.sequence + 1).Some?
    requires e.id in events && events[e.id] == e && EventValid(h, v, e)
    requires e.basis.run == run && e.basis.sequence == head.sequence + 1 && e.basis.previous == head.event
    ensures AtHead(h, v, events, run, Head(Some(e.id), e.basis.sequence))
         == Some(Back(h, v, events, run, head.event, head.sequence + 1).value + [e])
  {
  }

  /** The record an append writes passes the store's own event validation. */
  lemma PlannedEventValid(h: RunHashes, v: Store, log: Log, q: AppendRequest)
    requires PlanEvent(h, v, log, q).Ok?
    ensures
      var e := PlanEvent(h, v, log, q).value;
      && EventValid(h, v, e) && e.basis.run == q.run && q.run in log.heads && HeadShape(log.heads[q.run])
      && e.basis.sequence == log.heads[q.run].sequence + 1 && e.basis.previous == log.heads[q.run].event
      && (e.id in log.events ==> log.events[e.id] == e)
      && ParentObjection(h, v, log, q.run, e.basis.sequence, e.basis.parents).None?
  {
    hide HasRun, HasFile, HasEvent, ParentObjection, SortedRefs;
    SortedRefsAscend(q.files);
    if q.parents.Some? { SortedRefsAscend(q.parents.value); }
  }

  lemma {:induction false} ParentsAccepted(h: RunHashes, v: Store, log: Log, run: Id, sequence: nat, parents: seq<Id>)
    requires ParentObjection(h, v, log, run, sequence, parents).None?
    ensures forall p :: p in parents ==>
      HasEvent(h, v, log.events, p) && log.events[p].basis.run == run && log.events[p].basis.sequence < sequence
  {
    if parents != [] {
      ParentsAccepted(h, v, log, run, sequence, parents[1..]);
    }
  }

  lemma CreatePlansWell(h: RunHashes, v: Store, log: Log, basis: RunBasis)
    requires LogInv(h, v, log) && PlanCreate(h, v, log, basis).Ok?
    ensures GoodPlan(h, v, log, h.run(basis), PlanCreate(h, v, log, basis).value)
    ensures
      var todo := PlanCreate(h, v, log, basis).value;
      todo != [] ==> h.run(basis) !in log.heads && Outcome(h, v, log, h.run(basis), todo) == Some([])
  {
    var todo := PlanCreate(h, v, log, basis).value;
    if todo != [] {
      assert todo[|todo| - 1] == PutHead(h.run(basis), EmptyHead);
    }
  }

  lemma {:induction false} MissingEventsWrites(h: RunHashes, v: Store, events: map<Id, Event>, run: Id, es: seq<Event>)
    requires forall i :: 0 <= i < |es| ==> EventValid(h, v, es[i]) && es[i].basis.run == run
    ensures forall i :: 0 <= i < |MissingEvents(events, es)| ==>
      MissingEvents(events, es)[i].PutEvent? && GoodWrite(h, v, run, MissingEvents(events, es)[i])
  {
    if es != [] {
      MissingEventsWrites(h, v, events, run, es[1..]);
    }
  }

  lemma {:induction false} PendingConcat(events: map<Id, Event>, a: seq<Write>, b: seq<Write>)
    ensures Pending(events, a + b) == Pending(Pending(events, a), b)
    decreases |a|
  {
    if a == [] {
      assert a + b == b;
    } else {
      assert (a + b)[1..] == a[1..] + b;
      PendingConcat(if a[0].PutEvent? then events[a[0].event.id := a[0].event] else events, a[1..], b);
    }
  }

  /** After the missing events are written every imported event is on disk as given. */
  lemma {:induction false} ImportedOnDisk(h: RunHashes, v: Store, disk: map<Id, Event>, events: map<Id, Event>,
      es: seq<Event>)
    requires h.Sound() && SubLog(disk, events)
    requires forall i :: 0 <= i < |es| ==> EventValid(h, v, es[i])
    requires forall k :: k in events ==> events[k].id == k && h.event(events[k].basis) == k
    ensures var p := Pending(events, MissingEvents(disk, es));
      SubLog(events, p) && forall i :: 0 <= i < |es| ==> es[i].id in p && p[es[i].id] == es[i]
    decreases |es|
  {
    if es != [] {
      var e := es[0];
      if e.id in events { assert h.event(events[e.id].basis) == h.event(e.basis); }
      var next := if e.id in disk then events else events[e.id := e];
      ImportedOnDisk(h, v, disk, next, es[1..]);
      var p := Pending(events, MissingEvents(disk, es));
      assert p == Pending(next, MissingEvents(disk, es[1..])) by {
        if e.id in disk {
          assert MissingEvents(disk, es) == MissingEvents(disk, es[1..]);
        } else {
          assert MissingEvents(disk, es)[1..] == MissingEvents(disk, es[1..]);
        }
      }
      forall i | 0 <= i < |es| ensures es[i].id in p && p[es[i].id] == es[i] {
        if i > 0 { assert es[i] == es[1..][i - 1]; } else { assert next[e.id] == e; }
      }
    }
  }

  lemma ImportOrderMembers(rs: RecordSet, i: nat)
    requires i < |ImportOrder(rs)|
    ensures ImportOrder(rs)[i] in rs.events
    ensures |ImportOrder(rs)| == |rs.events|
  {
    Sorting.SortSorts(rs.events, SequenceKey());
    assert ImportOrder(rs)[i] in multiset(ImportOrder(rs));
  }

  lemma LinkedChains(run: Id, es: seq<Event>)
    requires ImportLinked(es) && forall i :: 0 <= i < |es| ==> es[i].basis.run == run
    ensures Chained(run, es) && ParentsLinked(es)
  {
    forall i | 0 <= i < |es| ensures es[i].basis.sequence == i && es[i].basis.previous == IdBefore(es, i) {
      assert LinkedAt(es, i);
    }
    forall i, p | 0 <= i < |es| && p in es[i].basis.parents ensures exists j :: 0 <= j < i && es[j].id == p {
      assert LinkedAt(es, i);
      var k: nat :| k < |es[i].basis.parents| && es[i].basis.parents[k] == p;
      assert EarlierParent(es, i, k);
    }
  }

  /** A record set of the right shape is a chain of valid events whose parents are linked. */
  lemma ImportIsChain(h: RunHashes, v: Store, rs: RecordSet)
    requires ImportShape(h, v, rs)
    ensures Chained(rs.run.id, ImportOrder(rs)) && ParentsLinked(ImportOrder(rs))
    ensures forall i :: 0 <= i < |ImportOrder(rs)| ==>
      EventValid(h, v, ImportOrder(rs)[i]) && ImportOrder(rs)[i].basis.run == rs.run.id
  {
    hide EventValid, RunValid, RunPrivacy, ImportLinked, Chained, ParentsLinked, ImportOrder;
    var es := ImportOrder(rs);
    forall i | 0 <= i < |es| ensures EventValid(h, v, es[i]) && es[i].basis.run == rs.run.id {
      ImportOrderMembers(rs, i);
    }
    LinkedChains(rs.run.id, es);
  }

  lemma ImportOutcome(h: RunHashes, v: Store, log: Log, rs: RecordSet, events: map<Id, Event>)
    requires ImportShape(h, v, rs)
    requires forall i :: 0 <= i < |ImportOrder(rs)| ==>
      ImportOrder(rs)[i].id in events && events[ImportOrder(rs)[i].id] == ImportOrder(rs)[i]
    ensures AtHead(h, v, events, rs.run.id, ImportHead(ImportOrder(rs))) == Some(ImportOrder(rs))
  {
    ImportIsChain(h, v, rs);
    ChainedBack(h, v, events, rs.run.id, ImportOrder(rs));
  }

  lemma ImportPlansWell(h: RunHashes, v: Store, log: Log, rs: RecordSet)
    requires h.Sound() && LogInv(h, v, log) && PlanImport(h, v, log, rs).Ok?
    ensures
      var todo := PlanImport(h, v, log, rs).value;
      && GoodPlan(h, v, log, rs.run.id, todo)
      && Outcome(h, v, log, rs.run.id, todo) == Some(ImportOrder(rs))
  {
    var todo := PlanImport(h, v, log, rs).value;
    ImportPending(h, v, log, rs);
    ImportOutcome(h, v, log, rs, Pending(log.events, todo));
    ImportWrites(h, v, log, rs);
    if rs.run.id in log.heads { ImportExtends(h, v, log, rs); }
    hide PlanImport, LogInv, ImportOrder, ImportHead, AtHead, History, GoodWrite, Pending;
  }

  lemma ImportWrites(h: RunHashes, v: Store, log: Log, rs: RecordSet)
    requires LogInv(h, v, log) && PlanImport(h, v, log, rs).Ok?
    ensures
      var todo := PlanImport(h, v, log, rs).value;
      && todo != [] && todo[|todo| - 1] == PutHead(rs.run.id, ImportHead(ImportOrder(rs)))
      && (rs.run.id in log.runs || todo[0].PutRun?)
      && forall i :: 0 <= i < |todo| - 1 ==>
           GoodWrite(h, v, rs.run.id, todo[i]) && (todo[i].PutRun? ==> i == 0 && rs.run.id !in log.runs)
  {
    hide EventValid, RunValid, Back, History, ImportOrder, ImportHead, ImportLinked, RunPrivacy;
    var es := ImportOrder(rs);
    ImportIsChain(h, v, rs);
    MissingEventsWrites(h, v, log.events, rs.run.id, es);
  }

  lemma EventsNamed(h: RunHashes, v: Store, log: Log)
    requires LogInv(h, v, log)
    ensures forall k :: k in log.events ==> log.events[k].id == k && h.event(log.events[k].basis) == k
  {
    forall k | k in log.events ensures log.events[k].id == k && h.event(log.events[k].basis) == k {
      assert EventStored(h, v, log, k);
    }
  }

  lemma PendingHead(events: map<Id, Event>, w: Write)
    requires w.PutHead?
    ensures Pending(events, [w]) == events
  {
    assert Pending(events, [w]) == Pending(events, [w][1..]);
  }

  lemma PendingRun(events: map<Id, Event>, r: Run)
    ensures Pending(events, [PutRun(r)]) == events
  {
    assert Pending(events, [PutRun(r)]) == Pending(events, [PutRun(r)][1..]);
  }

  lemma ImportPending(h: RunHashes, v: Store, log: Log, rs: RecordSet)
    requires h.Sound() && LogInv(h, v, log) && PlanImport(h, v, log, rs).Ok?
    ensures
      var p := Pending(log.events, PlanImport(h, v, log, rs).value);
      forall i :: 0 <= i < |ImportOrder(rs)| ==>
        ImportOrder(rs)[i].id in p && p[ImportOrder(rs)[i].id] == ImportOrder(rs)[i]
  {
    hide LogInv, EventValid, RunValid, History, ImportOrder, ImportLinked, RunPrivacy, MissingEvents, Pending;
    var es := ImportOrder(rs);
    var body := MissingEvents(log.events, es);
    var finish := [PutHead(rs.run.id, ImportHead(es))];
    ImportIsChain(h, v, rs);
    EventsNamed(h, v, log);
    PendingHead(Pending(log.events, body), finish[0]);
    PendingRun(log.events, rs.run);
    ImportedOnDisk(h, v, log.events, log.events, es);
    PendingConcat(log.events, body, finish);
    PendingConcat(log.events, [PutRun(rs.run)], body + finish);
  }

  /** Import continues the stored history: same identities are the same events. */
  lemma ImportExtends(h: RunHashes, v: Store, log: Log, rs: RecordSet)
    requires h.Sound() && LogInv(h, v, log) && PlanImport(h, v, log, rs).Ok? && rs.run.id in log.heads
    ensures Extends(History(h, v, log, rs.run.id), Some(ImportOrder(rs)))
  {
    hide RunValid, Back, EventValid, ImportShape, ImportOrder;
    var es := ImportOrder(rs);
    var current := History(h, v, log, rs.run.id).value;
    var head := log.heads[rs.run.id];
    BackChained(h, v, log.events, rs.run.id, head.event, head.sequence + 1);
    forall i | 0 <= i < |current| ensures current[i] == es[i] {
      assert es[i].id == current[i].id;
      assert log.events[es[i].id] == es[i];
    }
  }

  lemma PlansWell(h: RunHashes, v: Store, log: Log, op: Op)
    requires h.Sound() && LogInv(h, v, log) && Plan(h, v, log, op).Ok?
    ensures GoodPlan(h, v, log, Target(h, op), Plan(h, v, log, op).value)
  {
    hide GoodPlan, LogInv;
    match op
    case Create(basis) => CreatePlansWell(h, v, log, basis);
    case Append(q) => AppendPlansWell(h, v, log, q);
    case Import(rs) => ImportPlansWell(h, v, log, rs);
  }
}
