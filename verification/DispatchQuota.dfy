/** Two-level quota accounting of the dispatcher (`_charge` in `api/dispatcher.py`) and the renewal of its
    window by the gateway (`dispatch_local` in `api/remote_http.py`). */
module DispatchQuota {
  import opened RateWindows

  datatype Limits = Limits(processRequests: nat, processMutations: nat, callerRequests: nat, callerMutations: nat)

  /** The shipped limits. */
  const SHIPPED := Limits(1000, 200, 1000, 200)

  datatype Quota = Quota(requests: nat, mutations: nat) {
    function Charged(mutation: bool): Quota {
      Quota(requests + 1, if mutation then mutations + 1 else mutations)
    }
  }

  datatype Ledger = Ledger(process: Quota, callers: map<string, Quota>)

  const EMPTY := Ledger(Quota(0, 0), map[])

  datatype Verdict = Charged | ProcessRequests | ProcessMutations | CallerRequests | CallerMutations

  /** The four tests, in the order they are made. */
  function JudgeCounts(l: Limits, process: Quota, caller: Quota, mutation: bool): Verdict {
    if process.requests >= l.processRequests then ProcessRequests
    else if mutation && process.mutations >= l.processMutations then ProcessMutations
    else if caller.requests >= l.callerRequests then CallerRequests
    else if mutation && caller.mutations >= l.callerMutations then CallerMutations
    else Charged
  }

  function CountOf(s: Ledger, caller: string): Quota {
    if caller in s.callers then s.callers[caller] else Quota(0, 0)
  }

  function Judge(l: Limits, s: Ledger, caller: string, mutation: bool): Verdict {
    JudgeCounts(l, s.process, CountOf(s, caller), mutation)
  }

  /** A first call leaves an entry behind even when it is refused. */
  function Charge(l: Limits, s: Ledger, caller: string, mutation: bool): Ledger {
    if Judge(l, s, caller, mutation).Charged? then
      Ledger(s.process.Charged(mutation), s.callers[caller := CountOf(s, caller).Charged(mutation)])
    else s.(callers := s.callers[caller := CountOf(s, caller)])
  }

  // ----- sums over callers -----

  ghost function Sum(m: map<string, nat>): nat
    decreases |m|
  {
    if m == map[] then 0
    else
      var k :| k in m;
      Smaller(m, k);
      m[k] + Sum(m - {k})
  }

  lemma Smaller(m: map<string, nat>, k: string)
    requires k in m
    ensures |m - {k}| < |m|
  {
    assert (m - {k}).Keys == m.Keys - {k};
    assert |m.Keys - {k}| == |m.Keys| - 1;
  }

  lemma {:induction false} SumWithout(m: map<string, nat>, k: string)
    requires k in m
    ensures Sum(m) == m[k] + Sum(m - {k})
    decreases |m|
  {
    var first :| first in m && Sum(m) == m[first] + Sum(m - {first});
    if first != k {
      Smaller(m, first);
      Smaller(m, k);
      SumWithout(m - {first}, k);
      SumWithout(m - {k}, first);
      assert m - {first} - {k} == m - {k} - {first};
    }
  }

  lemma SumUpdate(m: map<string, nat>, k: string, n: nat)
    ensures Sum(m[k := n]) == Sum(m) - (if k in m then m[k] else 0) + n
  {
    var m' := m[k := n];
    SumWithout(m', k);
    if k in m {
      SumWithout(m, k);
      assert m' - {k} == m - {k};
    } else {
      assert m' - {k} == m;
    }
  }

  ghost function Requests(callers: map<string, Quota>): map<string, nat> {
    map c | c in callers :: callers[c].requests
  }

  ghost function Mutations(callers: map<string, Quota>): map<string, nat> {
    map c | c in callers :: callers[c].mutations
  }

  /** The process counts are the sums over the callers, and nobody has more mutations than requests. */
  ghost predicate Balanced(s: Ledger) {
    && s.process.requests == Sum(Requests(s.callers)) && s.process.mutations == Sum(Mutations(s.callers))
    && (forall c :: c in s.callers ==> s.callers[c].mutations <= s.callers[c].requests)
    && s.process.mutations <= s.process.requests
  }

  lemma SetCaller(callers: map<string, Quota>, c: string, q: Quota)
    ensures
      var had := if c in callers then callers[c] else Quota(0, 0);
      && Sum(Requests(callers[c := q])) == Sum(Requests(callers)) - had.requests + q.requests
      && Sum(Mutations(callers[c := q])) == Sum(Mutations(callers)) - had.mutations + q.mutations
  {
    assert Requests(callers[c := q]) == Requests(callers)[c := q.requests];
    assert Mutations(callers[c := q]) == Mutations(callers)[c := q.mutations];
    SumUpdate(Requests(callers), c, q.requests);
    SumUpdate(Mutations(callers), c, q.mutations);
  }

  /** Charging keeps the books balanced and within the process limits. */
  lemma ChargeBalances(l: Limits, s: Ledger, caller: string, mutation: bool)
    requires Balanced(s) && s.process.requests <= l.processRequests && s.process.mutations <= l.processMutations
    ensures
      var s' := Charge(l, s, caller, mutation);
      Balanced(s') && s'.process.requests <= l.processRequests && s'.process.mutations <= l.processMutations
  {
    var q := CountOf(s, caller);
    SetCaller(s.callers, caller, if Judge(l, s, caller, mutation).Charged? then q.Charged(mutation) else q);
  }

  /** A charged call adds one request, and one mutation if it is one, to the process and to its caller;
      a refused call adds nothing; no other caller's counts move. */
  ghost predicate Counted(s: Ledger, caller: string, mutation: bool, verdict: Verdict, s': Ledger) {
    var requests := if verdict.Charged? then 1 else 0;
    var mutations := if verdict.Charged? && mutation then 1 else 0;
    && s'.process == Quota(s.process.requests + requests, s.process.mutations + mutations)
    && forall c ::
         CountOf(s', c) == if c != caller then CountOf(s, c)
                           else Quota(CountOf(s, c).requests + requests, CountOf(s, c).mutations + mutations)
  }

  lemma ChargedBelow(l: Limits, s: Ledger, caller: string, mutation: bool)
    requires Judge(l, s, caller, mutation).Charged?
    ensures s.process.requests < l.processRequests && (mutation ==> s.process.mutations < l.processMutations)
  {
  }

  /** Charging counts all or nothing. */
  lemma AllOrNothing(l: Limits, s: Ledger, caller: string, mutation: bool)
    ensures Counted(s, caller, mutation, Judge(l, s, caller, mutation), Charge(l, s, caller, mutation))
  {
    hide JudgeCounts;
  }

  lemma {:induction false} PartOfSum(m: map<string, nat>, k: string)
    requires k in m
    ensures m[k] <= Sum(m)
  {
    SumWithout(m, k);
  }

  /** With limits per caller that are no tighter than the limits per process, as shipped, the two refusals per
      caller can never happen. */
  lemma CallerLimitsIdle(l: Limits, s: Ledger, caller: string, mutation: bool)
    requires Balanced(s) && l.callerRequests >= l.processRequests && l.callerMutations >= l.processMutations
    ensures !Judge(l, s, caller, mutation).CallerRequests? && !Judge(l, s, caller, mutation).CallerMutations?
  {
    if caller in s.callers {
      PartOfSum(Requests(s.callers), caller);
      PartOfSum(Mutations(s.callers), caller);
    }
  }

  /** The same call over and over, from the first. */
  ghost function Repeated(l: Limits, caller: string, mutation: bool, n: nat): Ledger {
    if n == 0 then EMPTY else Charge(l, Repeated(l, caller, mutation, n - 1), caller, mutation)
  }

  lemma {:induction false} RepeatedCounts(l: Limits, caller: string, mutation: bool, n: nat)
    requires n <= l.callerRequests && n <= l.processRequests
    requires mutation ==> n <= l.callerMutations && n <= l.processMutations
    ensures
      var q := Quota(n, if mutation then n else 0);
      Repeated(l, caller, mutation, n) == Ledger(q, if n == 0 then map[] else map[caller := q])
  {
    if n > 0 {
      RepeatedCounts(l, caller, mutation, n - 1);
    }
  }

  predicate MutationsTighter(l: Limits) {
    && l.callerMutations < l.processMutations
    && l.callerMutations < l.callerRequests && l.callerMutations < l.processRequests
  }

  /** With a tighter limit per caller on requests, or on mutations, one caller alone reaches it. */
  lemma CallerLimitReached(l: Limits, caller: string)
    ensures l.callerRequests < l.processRequests ==>
      Judge(l, Repeated(l, caller, false, l.callerRequests), caller, false).CallerRequests?
    ensures MutationsTighter(l) ==>
      Judge(l, Repeated(l, caller, true, l.callerMutations), caller, true).CallerMutations?
  {
    if l.callerRequests < l.processRequests { RepeatedCounts(l, caller, false, l.callerRequests); }
    if MutationsTighter(l) { RepeatedCounts(l, caller, true, l.callerMutations); }
  }

  // ----- the objects -----

  class QuotaState {
    var requests: nat
    var mutations: nat

    constructor ()
      ensures requests == 0 && mutations == 0
    {
      requests, mutations := 0, 0;
    }

    function Value(): Quota
      reads this
    {
      Quota(requests, mutations)
    }
  }

  class Dispatcher {
    var quota: map<string, QuotaState>
    const processQuota: QuotaState

    /** No two quotas share a counter. */
    ghost predicate Separate()
      reads this
    {
      processQuota !in quota.Values && forall a, b :: a in quota && b in quota && a != b ==> quota[a] != quota[b]
    }

    ghost predicate Valid()
      reads this, processQuota, quota.Values
    {
      Separate() && Balanced(Books()) && processQuota.requests <= SHIPPED.processRequests
        && processQuota.mutations <= SHIPPED.processMutations
    }

    ghost function Books(): Ledger
      reads this, processQuota, quota.Values
    {
      Ledger(processQuota.Value(), map c | c in quota :: quota[c].Value())
    }

    constructor ()
      ensures Valid() && Books() == EMPTY && fresh(processQuota) && quota == map[]
    {
      quota := map[];
      processQuota := new QuotaState();
      new;
      assert Sum(Requests(map[])) == 0 && Sum(Mutations(map[])) == 0;
    }

    /** `_charge`: refused exactly at 1000 requests, or for a mutation at 200 of them; otherwise the call is
        counted once, for the process and for its caller, and nobody else's counts move. */
    method ChargeCaller(caller: string, mutation: bool) returns (verdict: Verdict)
      requires Valid()
      modifies this, processQuota, quota.Values
      ensures Valid() && (forall s :: s in quota.Values ==> s in old(quota.Values) || fresh(s))
      ensures verdict == if old(processQuota.requests) >= 1000 then ProcessRequests
        else if mutation && old(processQuota.mutations) >= 200 then ProcessMutations
        else Charged
      ensures Counted(old(Books()), caller, mutation, verdict, Books())
      ensures verdict == Judge(SHIPPED, old(Books()), caller, mutation)
      ensures Books() == Charge(SHIPPED, old(Books()), caller, mutation)
    {
      hide Balanced, Sum, Counted;
      ghost var before := Books();
      CallerLimitsIdle(SHIPPED, before, caller, mutation);
      AllOrNothing(SHIPPED, before, caller, mutation);
      ChargeBalances(SHIPPED, before, caller, mutation);
      var state := StateOf(caller);
      assert Books().callers[caller] == state.Value() && Books().process == processQuota.Value();
      assert state.Value() == CountOf(before, caller) && processQuota.Value() == before.process;
      if processQuota.requests >= SHIPPED.processRequests {
        return ProcessRequests;
      }
      if mutation && processQuota.mutations >= SHIPPED.processMutations {
        return ProcessMutations;
      }
      if state.requests >= SHIPPED.callerRequests {
        assert false;
      }
      if mutation && state.mutations >= SHIPPED.callerMutations {
        assert false;
      }
      Count(caller, mutation);
      assert Books() == Charge(SHIPPED, before, caller, mutation);
      assert processQuota.Value() == Books().process;
      verdict := Charged;
    }

    /** The caller's counter, made on first use. */
    method StateOf(caller: string) returns (state: QuotaState)
      requires Separate()
      modifies this`quota
      ensures Separate() && caller in quota && state == quota[caller]
      ensures Books() == old(Books()).(callers := old(Books()).callers[caller := CountOf(old(Books()), caller)])
      ensures forall s :: s in quota.Values ==> s in old(quota.Values) || fresh(s)
    {
      if caller !in quota {
        state := new QuotaState();
        quota := quota[caller := state];
      }
      state := quota[caller];
    }

    method Count(caller: string, mutation: bool)
      requires Separate() && caller in quota
      modifies processQuota, quota[caller]
      ensures Separate() && quota == old(quota)
      ensures Books() == Ledger(old(Books()).process.Charged(mutation),
                                old(Books()).callers[caller := old(Books()).callers[caller].Charged(mutation)])
    {
      ghost var before := Books();
      var state := quota[caller];
      processQuota.requests := processQuota.requests + 1;
      state.requests := state.requests + 1;
      if mutation {
        processQuota.mutations := processQuota.mutations + 1;
        state.mutations := state.mutations + 1;
      }
      assert processQuota.Value() == before.process.Charged(mutation)
        && state.Value() == before.callers[caller].Charged(mutation);
      assert forall c :: c in quota && c != caller ==> quota[c].Value() == before.callers[c];
    }
  }

  // ----- window renewal -----

  /** The gateway's dispatcher, by its books, and when its window began. */
  datatype Gate = Gate(books: Ledger, start: real)

  datatype Call = Call(caller: string, mutation: bool, now: real)

  /** A window that is a minute old is replaced before the call is charged. */
  function Renewed(g: Gate, now: real): Gate {
    if now - g.start >= WINDOW then Gate(EMPTY, now) else g
  }

  function Dispatched(g: Gate, call: Call): Gate {
    var ready := Renewed(g, call.now);
    ready.(books := Charge(SHIPPED, ready.books, call.caller, call.mutation))
  }

  class Gateway {
    var dispatcher: Dispatcher
    var windowStarted: real

    ghost predicate Valid()
      reads this, dispatcher, dispatcher.processQuota, dispatcher.quota.Values
    {
      dispatcher.Valid()
    }

    ghost function State(): Gate
      reads this, dispatcher, dispatcher.processQuota, dispatcher.quota.Values
    {
      Gate(dispatcher.Books(), windowStarted)
    }

    constructor (now: real)
      ensures Valid() && State() == Gate(EMPTY, now)
    {
      dispatcher := new Dispatcher();
      windowStarted := now;
    }

    /** The quota part of `dispatch_local`. */
    method DispatchLocal(call: Call) returns (verdict: Verdict)
      requires Valid()
      modifies this, dispatcher, dispatcher.processQuota, dispatcher.quota.Values
      ensures Valid() && State() == Dispatched(old(State()), call)
      ensures verdict == Judge(SHIPPED, Renewed(old(State()), call.now).books, call.caller, call.mutation)
    {
      hide Balanced, Sum, Charge, Judge;
      if call.now - windowStarted >= WINDOW {
        dispatcher := new Dispatcher();
        windowStarted := call.now;
      }
      verdict := dispatcher.ChargeCaller(call.caller, call.mutation);
    }
  }

  ghost predicate ClockOrdered(opening: real, calls: seq<Call>) {
    && (forall i :: 0 <= i < |calls| ==> opening <= calls[i].now)
    && forall i, j :: 0 <= i < j < |calls| ==> calls[i].now <= calls[j].now
  }

  ghost function After(opening: real, calls: seq<Call>): Gate {
    if calls == [] then Gate(EMPTY, opening) else Dispatched(After(opening, calls[..|calls| - 1]), calls[|calls| - 1])
  }

  ghost predicate ChargedLast(opening: real, calls: seq<Call>)
    requires calls != []
  {
    var call := calls[|calls| - 1];
    Judge(SHIPPED, Renewed(After(opening, calls[..|calls| - 1]), call.now).books, call.caller, call.mutation).Charged?
  }

  /** The charged calls of a trace, or only its mutations, with the windows they fell into. */
  ghost function ChargedCalls(opening: real, calls: seq<Call>, onlyMutations: bool): seq<Grant> {
    if calls == [] then []
    else
      var call := calls[|calls| - 1];
      ChargedCalls(opening, calls[..|calls| - 1], onlyMutations) +
      (if ChargedLast(opening, calls) && (onlyMutations ==> call.mutation)
        then [Grant(call.now, After(opening, calls).start)] else [])
  }

  ghost function CountNow(g: Gate, onlyMutations: bool): nat {
    if onlyMutations then g.books.process.mutations else g.books.process.requests
  }

  function LimitOf(onlyMutations: bool): nat {
    if onlyMutations then SHIPPED.processMutations else SHIPPED.processRequests
  }

  ghost predicate Agrees(opening: real, calls: seq<Call>, onlyMutations: bool) {
    var gs, g := ChargedCalls(opening, calls, onlyMutations), After(opening, calls);
    && Windowed(gs) && Limited(gs, LimitOf(onlyMutations)) && CountNow(g, onlyMutations) == InWindow(gs, g.start)
    && (calls == [] ==> g.start == opening) && (calls != [] ==> g.start <= calls[|calls| - 1].now < g.start + WINDOW)
    && (gs != [] ==> gs[|gs| - 1].start == g.start || gs[|gs| - 1].start + WINDOW <= g.start)
  }

  lemma {:induction false} TraceAgrees(opening: real, calls: seq<Call>, onlyMutations: bool)
    requires ClockOrdered(opening, calls)
    ensures Agrees(opening, calls, onlyMutations)
  {
    if calls != [] {
      var n := |calls| - 1;
      TraceAgrees(opening, calls[..n], onlyMutations);
      assert n > 0 ==> calls[..n][n - 1].now <= calls[n].now;
      CallAgrees(opening, calls, onlyMutations);
    }
  }

  lemma CallAgrees(opening: real, calls: seq<Call>, onlyMutations: bool)
    requires calls != [] && ClockOrdered(opening, calls) && Agrees(opening, calls[..|calls| - 1], onlyMutations)
    ensures Agrees(opening, calls, onlyMutations)
  {
    hide Windowed, Limited, InWindow, Sum, JudgeCounts;
    var n := |calls| - 1;
    var before, call := calls[..n], calls[n];
    var gs, g := ChargedCalls(opening, before, onlyMutations), After(opening, before);
    assert n > 0 ==> before[n - 1].now <= call.now;
    var ready := Renewed(g, call.now);
    if ready.start != g.start { FreshWindow(gs, ready.start); }
    if ChargedLast(opening, calls) && (onlyMutations ==> call.mutation) {
      ChargedBelow(SHIPPED, ready.books, call.caller, call.mutation);
      GrantExtends(gs, Grant(call.now, ready.start), LimitOf(onlyMutations));
    } else {
      assert ChargedCalls(opening, calls, onlyMutations) == gs + [] == gs;
    }
  }

  lemma FreshWindow(gs: seq<Grant>, s: real)
    requires Windowed(gs) && (gs != [] ==> gs[|gs| - 1].start < s)
    ensures InWindow(gs, s) == 0
  {
    NotYetUsed(gs, s);
  }

  /** When a call is charged, from the calls charged so far alone: while its window holds fewer than 1000 of
      them and, for a mutation, fewer than 200 mutations.  Its window is the current one unless that is a
      minute old. */
  lemma ChargedIff(opening: real, calls: seq<Call>, call: Call)
    requires ClockOrdered(opening, calls + [call])
    ensures
      var current := After(opening, calls).start;
      var start := if call.now - current >= 60.0 then call.now else current;
      var all, mutations := ChargedCalls(opening, calls, false), ChargedCalls(opening, calls, true);
      var passes := InWindow(all, start) < 1000 && (call.mutation ==> InWindow(mutations, start) < 200);
      && After(opening, calls + [call]).start == start
      && ChargedCalls(opening, calls + [call], false) == all + (if passes then [Grant(call.now, start)] else [])
      && ChargedCalls(opening, calls + [call], true)
           == mutations + (if passes && call.mutation then [Grant(call.now, start)] else [])
  {
    hide Agrees, Balanced, Dispatched, Judge, InWindow;
    var trace := calls + [call];
    assert trace[..|trace| - 1] == calls && trace[|trace| - 1] == call;
    assert ClockOrdered(opening, calls) by {
      assert forall i :: 0 <= i < |calls| ==> calls[i] == trace[i];
    }
    TraceAgrees(opening, calls, false);
    TraceAgrees(opening, calls, true);
    RenewedCounts(opening, calls, call);
    BooksBalanced(opening, calls);
    RenewedBalanced(After(opening, calls), call.now);
    ChargedWithinLimits(Renewed(After(opening, calls), call.now).books, call.caller, call.mutation);
    DispatchedStart(After(opening, calls), call);
  }

  lemma DispatchedStart(g: Gate, call: Call)
    ensures Dispatched(g, call).start == if call.now - g.start >= 60.0 then call.now else g.start
  {
  }

  /** The books of the window a call falls into count its charged calls. */
  lemma RenewedCounts(opening: real, calls: seq<Call>, call: Call)
    requires Agrees(opening, calls, false) && Agrees(opening, calls, true)
    ensures
      var ready := Renewed(After(opening, calls), call.now);
      ready.books.process == Quota(InWindow(ChargedCalls(opening, calls, false), ready.start),
        InWindow(ChargedCalls(opening, calls, true), ready.start))
  {
    hide InWindow, Limited, Windowed, After, ChargedCalls, LimitOf;
    if call.now - After(opening, calls).start >= WINDOW {
      FreshWindow(ChargedCalls(opening, calls, false), call.now);
      FreshWindow(ChargedCalls(opening, calls, true), call.now);
    }
  }

  lemma ChargedWithinLimits(s: Ledger, caller: string, mutation: bool)
    requires Balanced(s)
    ensures Judge(SHIPPED, s, caller, mutation).Charged? <==>
      s.process.requests < 1000 && (mutation ==> s.process.mutations < 200)
  {
    hide Balanced;
    CallerLimitsIdle(SHIPPED, s, caller, mutation);
  }

  lemma RenewedBalanced(g: Gate, now: real)
    requires Balanced(g.books)
    ensures Balanced(Renewed(g, now).books)
  {
    assert Sum(Requests(map[])) == 0 && Sum(Mutations(map[])) == 0;
  }

  ghost predicate WithinLimits(s: Ledger) {
    s.process.requests <= SHIPPED.processRequests && s.process.mutations <= SHIPPED.processMutations
  }

  lemma {:induction false} BooksBalanced(opening: real, calls: seq<Call>)
    ensures Balanced(After(opening, calls).books) && WithinLimits(After(opening, calls).books)
  {
    if calls == [] {
      assert Sum(Requests(map[])) == 0 && Sum(Mutations(map[])) == 0;
    } else {
      var n := |calls| - 1;
      BooksBalanced(opening, calls[..n]);
      var g := After(opening, calls[..n]);
      RenewedBalanced(g, calls[n].now);
      ChargeBalances(SHIPPED, Renewed(g, calls[n].now).books, calls[n].caller, calls[n].mutation);
    }
  }

  /** Over any trace with a non-decreasing clock at most twice the process limits are charged in any half-open
      minute: 2000 requests, and 400 mutations. */
  lemma GatewayLimits(opening: real, calls: seq<Call>, t: real)
    requires ClockOrdered(opening, calls)
    ensures InMinute(ChargedCalls(opening, calls, false), t) <= 2000
    ensures InMinute(ChargedCalls(opening, calls, true), t) <= 400
  {
    TraceAgrees(opening, calls, false);
    TraceAgrees(opening, calls, true);
    AtMostTwiceTheLimit(ChargedCalls(opening, calls, false), SHIPPED.processRequests, t);
    AtMostTwiceTheLimit(ChargedCalls(opening, calls, true), SHIPPED.processMutations, t);
  }
}
