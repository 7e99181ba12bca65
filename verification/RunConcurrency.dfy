/** Many writers and crashes over one interaction store.  A writer takes the run's exclusive lock
    file, reads and checks, then performs its atomic writes one at a time; any other process, a
    crash, or growth of the File store may come between two of them. */
module RunConcurrency {
  import opened Common
  import opened Vault
  import opened RunLog
  import opened RunOps
  import opened RunPlans

  type Pid = nat

  /** A process without an entry is idle. */
  datatype Proc = Holding(run: Id) | Writing(run: Id, todo: seq<Write>)

  datatype Sys = Sys(store: Store, log: Log, locks: map<Id, Pid>, procs: map<Pid, Proc>)

  datatype Action =
    | Acquire(pid: Pid, run: Id)
    | Begin(pid: Pid, op: Op)
    | Perform(pid: Pid)
    | Finish(pid: Pid)
    | Crash(pid: Pid)
    | StoreGrows(store: Store)

  ghost predicate Step(h: RunHashes, s: Sys, a: Action, s': Sys) {
    match a
    case Acquire(p, run) =>
      // the lock file is created exclusively, or the operation fails before it begins
      p !in s.procs && run !in s.locks && s' == s.(locks := s.locks[run := p], procs := s.procs[p := Holding(run)])
    case Begin(p, op) =>
      && p in s.procs && s.procs[p] == Holding(Target(h, op))
      && s' == var plan := Plan(h, s.store, s.log, op);
               if plan.Ok? then s.(procs := s.procs[p := Writing(Target(h, op), plan.value)]) else Released(s, p)
    case Perform(p) =>
      && p in s.procs && s.procs[p].Writing? && s.procs[p].todo != []
      && s' == s.(log := Apply(s.log, s.procs[p].todo[0]),
        procs := s.procs[p := Writing(s.procs[p].run, s.procs[p].todo[1..])])
    case Finish(p) =>
      p in s.procs && (s.procs[p].Writing? ==> s.procs[p].todo == []) && s' == Released(s, p)
    case Crash(p) =>
      // the process dies where it stands; the operator clears its stale lock file
      p in s.procs && s' == Released(s, p)
    case StoreGrows(v) =>
      Grows(s.store, v) && StoreSound(h.store, v) && s' == s.(store := v)
  }

  function Released(s: Sys, p: Pid): Sys
    requires p in s.procs
  {
    s.(locks := s.locks - {s.procs[p].run}, procs := s.procs - {p})
  }

  ghost predicate Init(h: RunHashes, s: Sys) {
    StoreSound(h.store, s.store) && s.log == EmptyLog && s.locks == map[] && s.procs == map[]
  }

  ghost predicate LocksHeld(s: Sys) {
    && (forall p :: p in s.procs ==> s.procs[p].run in s.locks && s.locks[s.procs[p].run] == p)
    && (forall r :: r in s.locks ==> s.locks[r] in s.procs && s.procs[s.locks[r]].run == r)
  }

  ghost predicate PlansGood(h: RunHashes, s: Sys) {
    forall p :: p in s.procs && s.procs[p].Writing? ==> GoodPlan(h, s.store, s.log, s.procs[p].run, s.procs[p].todo)
  }

  ghost predicate Inv(h: RunHashes, s: Sys) {
    StoreSound(h.store, s.store) && LogInv(h, s.store, s.log) && LocksHeld(s) && PlansGood(h, s)
  }

  lemma InitEstablishes(h: RunHashes, s: Sys)
    requires Init(h, s)
    ensures Inv(h, s)
  {
  }

  lemma LogInvGrows(h: RunHashes, v: Store, v': Store, log: Log)
    requires Grows(v, v') && LogInv(h, v, log)
    ensures LogInv(h, v', log) && LogGrows(h, v, v', log, log)
  {
    forall k | k in log.runs ensures RunValid(h, v', log.runs[k]) { RunValidGrows(h, v, v', log.runs[k]); }
    forall k | k in log.events ensures EventStored(h, v', log, k) {
      assert EventStored(h, v, log, k);
      EventValidGrows(h, v, v', log.events[k]);
    }
    forall k | k in log.heads ensures History(h, v', log, k) == History(h, v, log, k) && History(h, v, log, k).Some? {
      HistoryStable(h, v, v', log, log, k);
    }
  }

  lemma SameLogGrows(h: RunHashes, v: Store, log: Log)
    requires LogInv(h, v, log)
    ensures LogGrows(h, v, v, log, log)
  {
  }

  /** Every step keeps the invariant, and keeps or extends every history. */
  lemma StepKeeps(h: RunHashes, s: Sys, a: Action, s': Sys)
    requires h.Sound() && Inv(h, s) && Step(h, s, a, s')
    ensures Inv(h, s') && Grows(s.store, s'.store) && LogGrows(h, s.store, s'.store, s.log, s'.log)
  {
    match a
    case Acquire(p, run) => QuietStep(h, s, a, s');
    case Begin(p, op) => BeginStep(h, s, p, op, s');
    case Perform(p) => PerformStep(h, s, p, s');
    case Finish(p) => QuietStep(h, s, a, s');
    case Crash(p) => QuietStep(h, s, a, s');
    case StoreGrows(v) => StoreStep(h, s, v, s');
  }

  lemma QuietStep(h: RunHashes, s: Sys, a: Action, s': Sys)
    requires Inv(h, s) && Step(h, s, a, s') && (a.Acquire? || a.Finish? || a.Crash?)
    ensures Inv(h, s') && Grows(s.store, s'.store) && LogGrows(h, s.store, s'.store, s.log, s'.log)
  {
    hide LogInv, StoreSound, GoodPlan, LogGrows;
    GrowsReflexive(s.store);
    SameLogGrows(h, s.store, s.log);
  }

  lemma BeginStep(h: RunHashes, s: Sys, p: Pid, op: Op, s': Sys)
    requires h.Sound() && Inv(h, s) && Step(h, s, Begin(p, op), s')
    ensures Inv(h, s') && Grows(s.store, s'.store) && LogGrows(h, s.store, s'.store, s.log, s'.log)
  {
    hide LogInv, StoreSound, GoodPlan, LogGrows, Plan, Target;
    GrowsReflexive(s.store);
    SameLogGrows(h, s.store, s.log);
    if Plan(h, s.store, s.log, op).Ok? { PlansWell(h, s.store, s.log, op); }
  }

  lemma PerformStep(h: RunHashes, s: Sys, p: Pid, s': Sys)
    requires h.Sound() && Inv(h, s) && Step(h, s, Perform(p), s')
    ensures Inv(h, s') && Grows(s.store, s'.store) && LogGrows(h, s.store, s'.store, s.log, s'.log)
  {
    hide LogInv, StoreSound, GoodPlan, LogGrows, Apply;
    GrowsReflexive(s.store);
    PerformWrite(h, s.store, s.log, s.procs[p].run, s.procs[p].todo);
    forall q | q in s'.procs && s'.procs[q].Writing?
      ensures GoodPlan(h, s'.store, s'.log, s'.procs[q].run, s'.procs[q].todo)
    {
      if q != p {
        assert s.procs[q].run != s.procs[p].run;
        OthersUndisturbed(h, s.store, s.log, s'.log, s.procs[p].run, s.procs[q].run, s.procs[q].todo);
      }
    }
  }

  lemma OthersUndisturbed(h: RunHashes, v: Store, log: Log, log': Log, run: Id, other: Id, todo: seq<Write>)
    requires LogGrows(h, v, v, log, log') && SameElsewhere(run, log, log') && other != run
    requires GoodPlan(h, v, log, other, todo)
    ensures GoodPlan(h, v, log', other, todo)
  {
    GrowsReflexive(v);
    PlanStable(h, v, v, log, log', other, todo);
  }

  lemma StoreStep(h: RunHashes, s: Sys, v: Store, s': Sys)
    requires Inv(h, s) && Step(h, s, StoreGrows(v), s')
    ensures Inv(h, s') && Grows(s.store, s'.store) && LogGrows(h, s.store, s'.store, s.log, s'.log)
  {
    hide LogInv, StoreSound, GoodPlan, LogGrows, Grows, SubLog;
    LogInvGrows(h, s.store, v, s.log);
    forall q | q in s'.procs && s'.procs[q].Writing?
      ensures GoodPlan(h, v, s'.log, s'.procs[q].run, s'.procs[q].todo)
    {
      SubLogReflexive(s.log);
      PlanStable(h, s.store, v, s.log, s.log, s.procs[q].run, s.procs[q].todo);
    }
  }

  lemma SubLogReflexive(log: Log)
    ensures SubLog(log.events, log.events)
  {
  }

  // ----- whole runs -----

  /** A run of the system: a trace of states with the actions between them. */
  ghost predicate Behaviour(h: RunHashes, trace: seq<Sys>, acts: seq<Action>) {
    && |trace| == |acts| + 1 && Init(h, trace[0])
    && forall i :: 0 <= i < |acts| ==> Step(h, trace[i], acts[i], trace[i + 1])
  }

  lemma {:induction false} Reachable(h: RunHashes, trace: seq<Sys>, acts: seq<Action>, i: nat)
    requires h.Sound() && Behaviour(h, trace, acts) && i < |trace|
    ensures Inv(h, trace[i])
  {
    if i == 0 {
      InitEstablishes(h, trace[0]);
    } else {
      Reachable(h, trace, acts, i - 1);
      StepKeeps(h, trace[i - 1], acts[i - 1], trace[i]);
    }
  }

  lemma GrowsTransitive(a: Store, b: Store, c: Store)
    requires Grows(a, b) && Grows(b, c)
    ensures Grows(a, c)
  {
  }

  lemma LogGrowsTransitive(h: RunHashes, a: Sys, b: Sys, c: Sys)
    requires LogGrows(h, a.store, b.store, a.log, b.log) && LogGrows(h, b.store, c.store, b.log, c.log)
    ensures LogGrows(h, a.store, c.store, a.log, c.log)
  {
    hide History;
    forall k | k in a.log.heads ensures Extends(History(h, a.store, a.log, k), History(h, c.store, c.log, k)) {
      PrefixTransitive(History(h, a.store, a.log, k).value, History(h, b.store, b.log, k).value,
        History(h, c.store, c.log, k).value);
    }
  }

  lemma PrefixTransitive<T>(a: seq<T>, b: seq<T>, c: seq<T>)
    requires IsPrefix(a, b) && IsPrefix(b, c)
    ensures IsPrefix(a, c)
  {
    assert c[..|b|][..|a|] == c[..|a|];
  }

  /** Append-only safety: over every interleaving, with crashes anywhere, later histories extend
      earlier ones and stored records never change. */
  lemma {:induction false} HistoriesOnlyGrow(h: RunHashes, trace: seq<Sys>, acts: seq<Action>, i: nat, j: nat)
    requires h.Sound() && Behaviour(h, trace, acts) && i <= j < |trace|
    ensures Grows(trace[i].store, trace[j].store)
    ensures LogGrows(h, trace[i].store, trace[j].store, trace[i].log, trace[j].log)
    decreases j - i
  {
    hide Grows, LogGrows, LogInv, StoreSound, Step;
    Reachable(h, trace, acts, i);
    if i == j {
      GrowsReflexive(trace[i].store);
      SameLogGrows(h, trace[i].store, trace[i].log);
    } else {
      HistoriesOnlyGrow(h, trace, acts, i, j - 1);
      Reachable(h, trace, acts, j - 1);
      StepKeeps(h, trace[j - 1], acts[j - 1], trace[j]);
      GrowsTransitive(trace[i].store, trace[j - 1].store, trace[j].store);
      LogGrowsTransitive(h, trace[i], trace[j - 1], trace[j]);
    }
  }

  /** In every reachable state a run with a HEAD has a history whose position `i` holds sequence `i`
      and whose links name the event before. */
  lemma ReachableHistoryIsChain(h: RunHashes, trace: seq<Sys>, acts: seq<Action>, i: nat, run: Id)
    requires h.Sound() && Behaviour(h, trace, acts) && i < |trace| && run in trace[i].log.heads
    ensures
      var s := trace[i];
      && History(h, s.store, s.log, run).Some?
      && Chained(run, History(h, s.store, s.log, run).value)
      && s.log.heads[run].event == IdBefore(History(h, s.store, s.log, run).value,
        |History(h, s.store, s.log, run).value|)
  {
    hide LogInv, Step, Back;
    Reachable(h, trace, acts, i);
    var s := trace[i];
    HasHistory(h, s.store, s.log, run);
    BackChained(h, s.store, s.log.events, run, s.log.heads[run].event, s.log.heads[run].sequence + 1);
  }

  lemma HasHistory(h: RunHashes, v: Store, log: Log, run: Id)
    requires LogInv(h, v, log) && run in log.heads
    ensures History(h, v, log, run).Some? && HeadShape(log.heads[run])
  {
  }

  /** An unlocked reader: the HEAD is read once, then each event file at some later moment.
      `times[d]` is the moment of the `d`-th read. */
  ghost function ReadLater(h: RunHashes, trace: seq<Sys>, times: seq<nat>, run: Id, cursor: Option<Id>,
      n: nat): Option<seq<Event>>
    requires forall d :: 0 <= d < |times| ==> times[d] < |trace|
    decreases n
  {
    if cursor.None? then (if n == 0 then Some([]) else None)
    else if n == 0 || times == [] then None
    else
      var s := trace[times[0]];
      if !HasEvent(h, s.store, s.log.events, cursor.value) then None
      else
        var e := s.log.events[cursor.value];
        if e.basis.run != run || e.basis.sequence != n - 1 then None
        else
          match ReadLater(h, trace, times[1..], run, e.basis.previous, n - 1)
          case None => None
          case Some(older) => Some(older + [e])
  }

  /** Reading without the lock returns the history at the moment the HEAD was read, however the
      writers interleave with the reads that follow. */
  lemma UnlockedReadIsAtomic(h: RunHashes, trace: seq<Sys>, acts: seq<Action>, i: nat, run: Id, times: seq<nat>)
    requires h.Sound() && Behaviour(h, trace, acts) && i < |trace| && run in trace[i].log.heads
    requires forall d :: 0 <= d < |times| ==> i <= times[d] < |trace|
    requires |times| >= trace[i].log.heads[run].sequence + 1
    ensures
      var head := trace[i].log.heads[run];
      HeadShape(head) &&
      ReadLater(h, trace, times, run, head.event, head.sequence + 1) == History(h, trace[i].store, trace[i].log, run)
  {
    hide Behaviour, LogInv, Back, ReadLater, Inv;
    ReachableHistoryIsChain(h, trace, acts, i, run);
    var head := trace[i].log.heads[run];
    LaterReadsAgree(h, trace, acts, i, run, times, head.event, head.sequence + 1);
  }

  lemma {:induction false} LaterReadsAgree(h: RunHashes, trace: seq<Sys>, acts: seq<Action>, i: nat, run: Id,
      times: seq<nat>, cursor: Option<Id>, n: nat)
    requires h.Sound() && Behaviour(h, trace, acts) && i < |trace|
    requires forall d :: 0 <= d < |times| ==> i <= times[d] < |trace|
    requires |times| >= n && Back(h, trace[i].store, trace[i].log.events, run, cursor, n).Some?
    ensures ReadLater(h, trace, times, run, cursor, n) == Back(h, trace[i].store, trace[i].log.events, run, cursor, n)
    decreases n
  {
    hide Behaviour, EventValid;
    if cursor.Some? {
      HistoriesOnlyGrow(h, trace, acts, i, times[0]);
      var e := trace[i].log.events[cursor.value];
      EventValidGrows(h, trace[i].store, trace[times[0]].store, e);
      LaterReadsAgree(h, trace, acts, i, run, times[1..], e.basis.previous, n - 1);
    }
  }
}
