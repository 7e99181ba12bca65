/** A concrete run of the store in which one crash lets `append_event` accept a parent that
    `verify_run` then refuses. */
module RunCrash {
  import opened Common
  import opened Vault
  import opened RunLog
  import opened RunOps
  import opened RunPlans
  import opened RunConcurrency
  import opened RunVerifiable
  import Sorting

  ghost predicate Leads(h: RunHashes, trace: seq<Sys>, acts: seq<Action>) {
    |trace| == |acts| + 1 && forall i :: 0 <= i < |acts| ==> Step(h, trace[i], acts[i], trace[i + 1])
  }

  lemma LeadsConcat(h: RunHashes, t1: seq<Sys>, a1: seq<Action>, t2: seq<Sys>, a2: seq<Action>)
    requires Leads(h, t1, a1) && Leads(h, t2, a2) && t1[|t1| - 1] == t2[0]
    ensures Leads(h, t1 + t2[1..], a1 + a2) && (t1 + t2[1..])[|a1| + |a2|] == t2[|a2|]
  {
    hide Step;
    var t, a := t1 + t2[1..], a1 + a2;
    forall i | 0 <= i < |a| ensures Step(h, t[i], a[i], t[i + 1]) {
      if i < |a1| {
        assert t[i] == t1[i] && t[i + 1] == t1[i + 1];
      } else {
        assert t[i] == t2[i - |a1|] && t[i + 1] == t2[i - |a1| + 1];
      }
    }
  }

  /** Performing the first `k` writes of a plan. */
  lemma {:induction false} Writes(h: RunHashes, s: Sys, p: Pid, run: Id, todo: seq<Write>, k: nat)
    returns (trace: seq<Sys>, acts: seq<Action>)
    requires k <= |todo| && p in s.procs && s.procs[p] == Writing(run, todo)
    ensures Leads(h, trace, acts) && trace[0] == s && forall a :: a in acts ==> a == Perform(p)
    ensures trace[|acts|] == s.(log := ApplyAll(s.log, todo[..k]), procs := s.procs[p := Writing(run, todo[k..])])
    decreases k
  {
    if k == 0 {
      trace, acts := [s], [];
      assert s.procs[p := Writing(run, todo[0..])] == s.procs;
    } else {
      var s' := s.(log := Apply(s.log, todo[0]), procs := s.procs[p := Writing(run, todo[1..])]);
      var t, a := Writes(h, s', p, run, todo[1..], k - 1);
      trace, acts := [s] + t, [Perform(p)] + a;
      assert Step(h, s, Perform(p), s');
      assert Leads(h, trace, acts) by {
        forall i | 0 <= i < |acts| ensures Step(h, trace[i], acts[i], trace[i + 1]) {
          if i > 0 { assert trace[i] == t[i - 1] && trace[i + 1] == t[i]; }
        }
      }
      assert todo[..k][1..] == todo[1..][..k - 1] && todo[1..][k - 1..] == todo[k..];
      assert ApplyAll(s.log, todo[..k]) == ApplyAll(s'.log, todo[1..][..k - 1]);
      assert s'.procs[p := Writing(run, todo[k..])] == s.procs[p := Writing(run, todo[k..])];
    }
  }

  /** One operation on an otherwise idle system; `crash` tells whether its process dies before the rest
      of its writes, or finishes them. */
  lemma Operation(h: RunHashes, store: Store, log: Log, op: Op, k: nat, crash: bool)
    returns (trace: seq<Sys>, acts: seq<Action>)
    requires Plan(h, store, log, op).Ok? && k <= |Plan(h, store, log, op).value|
    requires !crash ==> k == |Plan(h, store, log, op).value|
    ensures Leads(h, trace, acts) && trace[0] == Sys(store, log, map[], map[])
    ensures trace[|acts|] == Sys(store, ApplyAll(log, Plan(h, store, log, op).value[..k]), map[], map[])
    ensures |acts| >= 1 && forall i :: 0 <= i < |acts| - 1 ==> !acts[i].Crash?
    ensures acts[|acts| - 1].Crash? <==> crash
  {
    hide Plan, Target, ApplyAll;
    var run, todo := Target(h, op), Plan(h, store, log, op).value;
    var s0 := Sys(store, log, map[], map[]);
    var s1 := Sys(store, log, map[run := 0], map[0 := Holding(run)]);
    var s2 := Sys(store, log, map[run := 0], map[0 := Writing(run, todo)]);
    assert Step(h, s0, Acquire(0, run), s1);
    assert s2.procs == s1.procs[0 := Writing(run, todo)];
    assert Step(h, s1, Begin(0, op), s2);
    var t, a := Writes(h, s2, 0, run, todo, k);
    var s3 := t[|a|];
    var last := if crash then Crash(0) else Finish(0);
    var s4 := Sys(store, ApplyAll(log, todo[..k]), map[], map[]);
    assert s3.locks - {run} == map[] && s3.procs - {0} == map[];
    assert Released(s3, 0) == s4;
    assert Step(h, s3, last, s4);
    var head, tail := [s0, s1, s2], [s3, s4];
    assert Leads(h, head, [Acquire(0, run), Begin(0, op)]);
    assert Leads(h, tail, [last]);
    LeadsConcat(h, head, [Acquire(0, run), Begin(0, op)], t, a);
    LeadsConcat(h, head + t[1..], [Acquire(0, run), Begin(0, op)] + a, tail, [last]);
    trace, acts := head + t[1..] + tail[1..], [Acquire(0, run), Begin(0, op)] + a + [last];
    forall i | 0 <= i < |acts| - 1 ensures !acts[i].Crash? {
      if i >= 2 { assert acts[i] == a[i - 2] && a[i - 2] in a; }
    }
  }

  function Receipt(run: Id, payload: string, parents: Option<seq<Id>>): AppendRequest {
    AppendRequest(run, Kind.Receipt, None, None, "t", payload, parents, [], [])
  }

  const question := RunBasis("q", "t", [], None)

  function RunLogWith(h: RunHashes, events: map<Id, Event>, head: Head): Log {
    var r := h.run(question);
    Log(map[r := Run(r, question)], events, map[r := head])
  }

  function ReceiptEvent(h: RunHashes, sequence: nat, previous: Option<Id>, payload: string, parents: seq<Id>): Event {
    var b := EventBasis(h.run(question), sequence, previous, parents, Kind.Receipt, None, None, "t", [], [], payload);
    Event(h.event(b), b)
  }

  function A(h: RunHashes): Event { ReceiptEvent(h, 0, None, "a", []) }
  function B(h: RunHashes): Event { ReceiptEvent(h, 0, None, "b", []) }
  function C(h: RunHashes): Event { ReceiptEvent(h, 1, Some(B(h).id), "c", [A(h).id]) }

  function Log0(h: RunHashes): Log { RunLogWith(h, map[], EmptyHead) }
  function Log1(h: RunHashes): Log { RunLogWith(h, map[A(h).id := A(h)], EmptyHead) }
  function Log2(h: RunHashes): Log { RunLogWith(h, map[A(h).id := A(h), B(h).id := B(h)], Head(Some(B(h).id), 0)) }
  function Log3(h: RunHashes): Log { RunLogWith(h, map[A(h).id := A(h), B(h).id := B(h), C(h).id := C(h)],
      Head(Some(C(h).id), 1)) }

  lemma ExampleIds(h: RunHashes)
    requires h.Sound()
    ensures A(h).id != B(h).id && A(h).id != C(h).id && B(h).id != C(h).id
  {
    assert A(h).basis.payload != B(h).basis.payload && A(h).basis.payload != C(h).basis.payload
      && B(h).basis.payload != C(h).basis.payload;
  }

  lemma CreateExample(h: RunHashes)
    ensures PlanCreate(h, EmptyStore, EmptyLog,
      question) == Ok([PutRun(Run(h.run(question), question)), PutHead(h.run(question), EmptyHead)])
    ensures ApplyAll(EmptyLog, PlanCreate(h, EmptyStore, EmptyLog, question).value) == Log0(h)
  {
    var r := h.run(question);
    var w1, w2 := PutRun(Run(r, question)), PutHead(r, EmptyHead);
    var mid := Apply(EmptyLog, w1);
    assert ApplyAll(mid, [w2]) == ApplyAll(Apply(mid, w2), []);
    assert [w1, w2][1..] == [w2];
  }

  lemma AppendExample(h: RunHashes, log: Log, q: AppendRequest, e: Event)
    requires log.runs == Log0(h).runs && h.run(question) in log.heads && HeadShape(log.heads[h.run(question)])
    requires q == Receipt(h.run(question), e.basis.payload, q.parents)
    requires e == ReceiptEvent(h, log.heads[h.run(question)].sequence + 1, log.heads[h.run(question)].event,
      e.basis.payload, e.basis.parents)
    requires ChosenParents(q, log.heads[h.run(question)]) == Ok(e.basis.parents)
    requires ParentObjection(h, EmptyStore, log, h.run(question), e.basis.sequence, e.basis.parents).None?
    requires e.id !in log.events
    ensures PlanEvent(h, EmptyStore, log, q) == Ok(e)
    ensures PlanAppend(h, EmptyStore, log,
      q) == Ok([PutEvent(e), PutHead(h.run(question), Head(Some(e.id), e.basis.sequence))])
  {
    hide HasEvent, ParentObjection, ChosenParents;
    assert SortedRefs(q.files) == Ok([]);
    var head := PutHead(h.run(question), Head(Some(e.id), e.basis.sequence));
    assert [PutEvent(e)] + [head] == [PutEvent(e), head];
  }

  lemma ApplyExample(h: RunHashes, log: Log, e: Event, last: Write)
    requires last.PutHead? && e.id !in log.events
    ensures ApplyAll(log, [PutEvent(e), last][..1]) == log.(events := log.events[e.id := e])
    ensures ApplyAll(log, [PutEvent(e), last][..2]) == log.(events := log.events[e.id := e],
      heads := log.heads[last.target := last.head])
  {
    AppendApplied(log, e, last);
    assert [PutEvent(e), last][..2] == [PutEvent(e)] + [last];
    assert [PutEvent(e), last][..1] == [PutEvent(e)];
    assert [PutEvent(e)][1..] == [];
  }

  /** A stores its event and crashes before its HEAD write. */
  lemma FirstHalf(h: RunHashes) returns (trace: seq<Sys>, acts: seq<Action>)
    requires h.Sound()
    ensures Leads(h, trace, acts) && trace[0] == Sys(EmptyStore, EmptyLog, map[], map[])
    ensures trace[|acts|] == Sys(EmptyStore, Log1(h), map[], map[])
    ensures |acts| >= 1 && acts[|acts| - 1].Crash? && forall i :: 0 <= i < |acts| - 1 ==> !acts[i].Crash?
  {
    hide Leads, PlanEvent, PlanAppend, ApplyAll, PlanCreate;
    var r := h.run(question);
    CreateExample(h);
    var t0, a0 := Operation(h, EmptyStore, EmptyLog, Create(question), 2, false);
    var w0 := PlanCreate(h, EmptyStore, EmptyLog, question).value;
    assert w0[..2] == w0;
    var qa := Receipt(r, "a", None);
    AppendExample(h, Log0(h), qa, A(h));
    var t1, a1 := Operation(h, EmptyStore, Log0(h), Append(qa), 1, true);
    ApplyExample(h, Log0(h), A(h), PutHead(r, Head(Some(A(h).id), 0)));
    LeadsShape(h, t0, a0);
    LeadsShape(h, t1, a1);
    LeadsConcat(h, t0, a0, t1, a1);
    trace, acts := t0 + t1[1..], a0 + a1;
  }

  lemma LeadsShape(h: RunHashes, trace: seq<Sys>, acts: seq<Action>)
    requires Leads(h, trace, acts)
    ensures |trace| == |acts| + 1
  {
  }

  /** B takes A's place; C names A as its parent and is accepted. */
  lemma SecondHalf(h: RunHashes) returns (trace: seq<Sys>, acts: seq<Action>)
    requires h.Sound()
    ensures Leads(h, trace, acts) && trace[0] == Sys(EmptyStore, Log1(h), map[], map[])
    ensures trace[|acts|] == Sys(EmptyStore, Log3(h), map[], map[])
    ensures forall i :: 0 <= i < |acts| ==> !acts[i].Crash?
  {
    hide Leads, PlanEvent, PlanAppend, ApplyAll;
    var r := h.run(question);
    ExampleIds(h);
    var qb, qc := Receipt(r, "b", None), Receipt(r, "c", Some([A(h).id]));
    AppendExample(h, Log1(h), qb, B(h));
    var t0, a0 := Operation(h, EmptyStore, Log1(h), Append(qb), 2, false);
    ApplyExample(h, Log1(h), B(h), PutHead(r, Head(Some(B(h).id), 0)));
    OneRefSorts(A(h).id);
    OrphanIsAcceptable(h);
    AppendExample(h, Log2(h), qc, C(h));
    var t1, a1 := Operation(h, EmptyStore, Log2(h), Append(qc), 2, false);
    ApplyExample(h, Log2(h), C(h), PutHead(r, Head(Some(C(h).id), 1)));
    LeadsShape(h, t0, a0);
    LeadsShape(h, t1, a1);
    LeadsConcat(h, t0, a0, t1, a1);
    trace, acts := t0 + t1[1..], a0 + a1;
  }

  lemma OneRefSorts(x: Id)
    ensures SortedRefs([x]) == Ok([x])
  {
    assert [x][1..] == [];
    assert Sorting.SortBy<Id>([x], IdKey()) == Sorting.InsertBy<Id>(x, Sorting.SortBy<Id>([], IdKey()), IdKey());
  }

  lemma OrphanIsAcceptable(h: RunHashes)
    requires h.Sound()
    ensures ParentObjection(h, EmptyStore, Log2(h), h.run(question), 1, [A(h).id]).None?
  {
    ExampleIds(h);
    assert HasEvent(h, EmptyStore, Log2(h).events, A(h).id);
    assert [A(h).id][1..] == [];
  }

  lemma ExampleHistory(h: RunHashes)
    requires h.Sound()
    ensures History(h, EmptyStore, Log3(h), h.run(question)) == Some([B(h), C(h)])
    ensures !ParentsLinked([B(h), C(h)])
  {
    ExampleIds(h);
    var events := Log3(h).events;
    ChainedBack(h, EmptyStore, events, h.run(question), [B(h), C(h)]);
    assert A(h).id in [B(h), C(h)][1].basis.parents;
  }

  /** One crash, and an append the store accepts leaves a run that no longer verifies. */
  lemma OrphanParentBreaksVerify(h: RunHashes) returns (trace: seq<Sys>, acts: seq<Action>, c: nat)
    requires h.Sound()
    ensures Behaviour(h, trace, acts) && c < |acts|
    ensures forall i :: 0 <= i < |acts| ==> (acts[i].Crash? <==> i == c)
    ensures
      var s := trace[|acts|];
      h.run(question) in s.log.heads && s.locks == map[] && !VerifyRunAccepts(h, s.store, s.log, h.run(question))
  {
    hide Step, VerifyRunAccepts, LogInv, History;
    var t0, a0 := FirstHalf(h);
    var t1, a1 := SecondHalf(h);
    LeadsConcat(h, t0, a0, t1, a1);
    trace, acts, c := t0 + t1[1..], a0 + a1, |a0| - 1;
    Reachable(h, trace, acts, |acts|);
    ExampleHistory(h);
    VerifyIffLinked(h, EmptyStore, Log3(h), h.run(question));
  }

  // ----- an import that dies -----

  /** A run with one event, as another store would export it. */
  function OneEvent(h: RunHashes): RecordSet {
    RecordSet(Public, Run(h.run(question), question), [A(h)])
  }

  lemma OneEventOrder(h: RunHashes)
    ensures ImportOrder(OneEvent(h)) == [A(h)] && ImportLinked([A(h)])
  {
    var es := [A(h)];
    assert es[1..] == [];
    assert Sorting.SortBy<Event>(es, SequenceKey())
      == Sorting.InsertBy<Event>(A(h), Sorting.SortBy<Event>([], SequenceKey()), SequenceKey());
    assert LinkedAt(es, 0);
  }

  lemma OneEventPrivacy(h: RunHashes)
    ensures RunPrivacy(h, EmptyStore, Run(h.run(question), question), [A(h)]) == Some(Public)
  {
    var lists := seq(1, i requires 0 <= i < 1 => [A(h)][i].basis.files);
    assert lists == [[]] && lists[1..] == [];
    assert Flatten(lists) == [];
    assert question.files + CollectionFiles(h, EmptyStore, Run(h.run(question), question)) + EventFiles([A(h)]) == [];
  }

  lemma OneEventPlan(h: RunHashes)
    requires h.Sound() && h.encodedSize(OneEvent(h)) <= MAX_RECORD_SET_BYTES
    ensures PlanImport(h, EmptyStore, EmptyLog, OneEvent(h))
      == Ok([PutRun(OneEvent(h).run), PutEvent(A(h)), PutHead(h.run(question), Head(Some(A(h).id), 0))])
  {
    hide RunPrivacy, ImportOrder;
    OneEventOrder(h);
    OneEventPrivacy(h);
    var es := [A(h)];
    assert EventValid(h, EmptyStore, A(h));
    assert MissingEvents(map[], es[1..]) == [] && MissingEvents(map[], es) == [PutEvent(A(h))];
    assert ImportShape(h, EmptyStore, OneEvent(h));
    assert ImportHead(es) == Head(Some(A(h).id), 0);
    assert [PutRun(OneEvent(h).run)] + ([PutEvent(A(h))] + [PutHead(h.run(question), ImportHead(es))])
      == [PutRun(OneEvent(h).run), PutEvent(A(h)), PutHead(h.run(question), Head(Some(A(h).id), 0))];
  }

  /** An import of a one-event run that dies before its HEAD write leaves the run stranded, for good. */
  lemma CrashedImport(h: RunHashes) returns (trace: seq<Sys>, acts: seq<Action>)
    requires h.Sound() && h.encodedSize(OneEvent(h)) <= MAX_RECORD_SET_BYTES
    ensures Behaviour(h, trace, acts) && acts != []
    ensures forall i :: 0 <= i < |acts| ==> (acts[i].Crash? <==> i == |acts| - 1)
    ensures Stranded(trace[|acts|], h.run(question)) && trace[|acts|].locks == map[]
  {
    hide Leads, Plan, ApplyAll, Stranded, Behaviour, PlanImport, Step, A;
    OneEventPlan(h);
    ImportPlanned(h, EmptyStore, EmptyLog, OneEvent(h));
    trace, acts := Operation(h, EmptyStore, EmptyLog, Import(OneEvent(h)), 2, true);
    LeadsBehaves(h, trace, acts);
    var todo := Plan(h, EmptyStore, EmptyLog, Import(OneEvent(h))).value;
    assert todo[..2] == [PutRun(OneEvent(h).run), PutEvent(A(h))];
    HalfImported(h);
  }

  /** Run record and event are written, the HEAD is not. */
  lemma HalfImported(h: RunHashes)
    ensures
      var log := ApplyAll(EmptyLog, [PutRun(OneEvent(h).run), PutEvent(A(h))]);
      Stranded(Sys(EmptyStore, log, map[], map[]), h.run(question))
  {
    var w1, w2 := PutRun(OneEvent(h).run), PutEvent(A(h));
    var mid := Apply(EmptyLog, w1);
    assert [w1, w2][1..] == [w2] && [w2][1..] == [];
    assert ApplyAll(EmptyLog, [w1, w2]) == ApplyAll(mid, [w2]) == ApplyAll(Apply(mid, w2), []) == Apply(mid, w2);
    var log := Apply(mid, w2);
    assert A(h).id in log.events && log.events[A(h).id].basis.run == h.run(question);
  }

  lemma ImportPlanned(h: RunHashes, v: Store, log: Log, rs: RecordSet)
    ensures Plan(h, v, log, Import(rs)) == PlanImport(h, v, log, rs)
  {
  }

  lemma LeadsBehaves(h: RunHashes, trace: seq<Sys>, acts: seq<Action>)
    requires Leads(h, trace, acts) && trace[0] == Sys(EmptyStore, EmptyLog, map[], map[])
    ensures Behaviour(h, trace, acts)
  {
  }
}
