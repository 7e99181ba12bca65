/** The per-principal quota of the read-only edge (`EdgeServer.admit` in `deployment/edge.py`). */
module EdgeQuota {
  import opened RateWindows

  const MAX_RATE_PER_MINUTE := 35
  const MAX_TRACKED := 2048

  datatype Window = Window(start: real, count: nat)

  type Table = map<string, Window>

  /** Windows older than a minute are dropped first. */
  function Pruned(table: Table, now: real): Table {
    map p | p in table && now - table[p].start < WINDOW :: table[p]
  }

  function Admitted(table: Table, principal: string, now: real): bool {
    var live := Pruned(table, now);
    && (principal in live || |live| < MAX_TRACKED)
    && (principal in live ==> live[principal].count < MAX_RATE_PER_MINUTE)
  }

  function Next(table: Table, principal: string, now: real): Table {
    var live := Pruned(table, now);
    if !Admitted(table, principal, now) then live
    else
      var w := if principal in live then live[principal] else Window(now, 0);
      live[principal := Window(w.start, w.count + 1)]
  }

  class EdgeQuota {
    var quotas: Table

    ghost predicate Valid()
      reads this
    {
      |quotas| <= MAX_TRACKED && forall p :: p in quotas ==> 0 < quotas[p].count <= MAX_RATE_PER_MINUTE
    }

    constructor ()
      ensures Valid() && quotas == map[]
    {
      quotas := map[];
    }

    /** `admit`: within an open window up to 35 calls pass; without one a call passes, and opens a window, while
        fewer than 2048 principals have one.  Another principal's window is either left alone or dropped
        because its minute is over. */
    method Admit(principal: string, now: real) returns (admitted: bool)
      requires Valid()
      modifies this`quotas
      ensures Valid()
      ensures forall w :: w in LiveAt(old(quotas), principal, now) ==>
        && (admitted <==> w.count < 35)
        && LiveAt(quotas, principal, now) == {if admitted then Window(w.start, w.count + 1) else w}
      ensures LiveAt(old(quotas), principal, now) == {} ==>
        && (admitted <==> |Tracked(old(quotas), now)| < 2048)
        && LiveAt(quotas, principal, now) == if admitted then {Window(now, 1)} else {}
      ensures old(quotas) == map[] ==> admitted
      ensures admitted == Admitted(old(quotas), principal, now) && quotas == Next(old(quotas), principal, now)
      ensures forall p, later :: p != principal && later >= now ==>
        LiveAt(quotas, p, later) == LiveAt(old(quotas), p, later)
    {
      PrunedShrinks(quotas, now);
      AdmitMeans(quotas, principal, now);
      hide Tracked;
      quotas := Pruned(quotas, now);
      if principal !in quotas && |quotas| >= MAX_TRACKED {
        return false;
      }
      var w := if principal in quotas then quotas[principal] else Window(now, 0);
      if w.count >= MAX_RATE_PER_MINUTE {
        return false;
      }
      quotas := quotas[principal := Window(w.start, w.count + 1)];
      admitted := true;
    }
  }

  /** The window a principal would be found to have at time `now`. */
  ghost function LiveAt(table: Table, p: string, now: real): set<Window> {
    if p in table && now - table[p].start < WINDOW then {table[p]} else {}
  }

  /** The principals with an open window. */
  ghost function Tracked(table: Table, now: real): set<string> {
    set p | p in table && LiveAt(table, p, now) != {}
  }

  lemma PrunedKeepsTracked(table: Table, now: real)
    ensures Pruned(table, now).Keys == Tracked(table, now) && |Pruned(table, now)| == |Tracked(table, now)|
  {
    assert forall p :: p in Pruned(table, now).Keys <==> p in Tracked(table, now);
  }

  lemma AdmitMeans(table: Table, p: string, now: real)
    ensures
      var admitted, after := Admitted(table, p, now), Next(table, p, now);
      && (forall w :: w in LiveAt(table, p, now) ==>
            && (admitted <==> w.count < 35)
            && LiveAt(after, p, now) == {if admitted then Window(w.start, w.count + 1) else w})
      && (LiveAt(table, p, now) == {} ==>
            && (admitted <==> |Tracked(table, now)| < 2048)
            && LiveAt(after, p, now) == if admitted then {Window(now, 1)} else {})
      && (table == map[] ==> admitted)
  {
    PrunedKeepsTracked(table, now);
    hide Tracked;
    assert LiveAt(table, p, now) == if p in Pruned(table, now) then {Pruned(table, now)[p]} else {};
  }

  lemma PrunedShrinks(table: Table, now: real)
    ensures |Pruned(table, now)| <= |table|
  {
    var a, b := Pruned(table, now).Keys, table.Keys;
    assert a <= b;
    assert b == a + (b - a);
  }

  // ----- whole traces -----

  datatype Call = Call(principal: string, now: real)

  /** The clock never goes back. */
  ghost predicate ClockOrdered(calls: seq<Call>) {
    forall i, j :: 0 <= i < j < |calls| ==> calls[i].now <= calls[j].now
  }

  ghost function After(calls: seq<Call>): Table {
    if calls == [] then map[] else Next(After(calls[..|calls| - 1]), calls[|calls| - 1].principal,
      calls[|calls| - 1].now)
  }

  /** What `p` was granted over the trace, with the window each grant was counted in. */
  ghost function Granted(calls: seq<Call>, p: string): seq<Grant> {
    if calls == [] then []
    else
      var before, call := calls[..|calls| - 1], calls[|calls| - 1];
      Granted(before, p) +
      (if call.principal == p && Admitted(After(before), p, call.now) then [Grant(call.now, After(calls)[p].start)]
        else [])
  }

  /** The table agrees with the grants: it holds the current window with its count, or that window is over. */
  ghost predicate Agrees(calls: seq<Call>, p: string) {
    var gs, table := Granted(calls, p), After(calls);
    && Windowed(gs) && Limited(gs, MAX_RATE_PER_MINUTE)
    && (p in table ==>
      gs != [] && table[p].start == gs[|gs| - 1].start && table[p].count == InWindow(gs, table[p].start))
    && (gs != [] ==> calls != [] && gs[|gs| - 1].start <= calls[|calls| - 1].now)
    && (p !in table && gs != [] ==> gs[|gs| - 1].start + WINDOW <= calls[|calls| - 1].now)
  }

  lemma {:induction false} TraceAgrees(calls: seq<Call>, p: string)
    requires ClockOrdered(calls)
    ensures Agrees(calls, p)
  {
    if calls != [] {
      var n := |calls| - 1;
      TraceAgrees(calls[..n], p);
      assert n > 0 ==> calls[..n][n - 1].now <= calls[n].now;
      CallAgrees(calls, p);
    }
  }

  lemma CallAgrees(calls: seq<Call>, p: string)
    requires calls != [] && ClockOrdered(calls) && Agrees(calls[..|calls| - 1], p)
    ensures Agrees(calls, p)
  {
    hide Windowed, Limited, InWindow;
    var n := |calls| - 1;
    var before, call := calls[..n], calls[n];
    var gs := Granted(before, p);
    assert n > 0 ==> before[n - 1].now <= call.now;
    if call.principal == p && Admitted(After(before), p, call.now) {
      var g := Grant(call.now, After(calls)[p].start);
      if p !in Pruned(After(before), call.now) {
        WindowIsNew(gs, call.now);
      }
      GrantExtends(gs, g, MAX_RATE_PER_MINUTE);
    } else {
      assert Granted(calls, p) == gs + [] == gs;
    }
  }

  /** A window that begins after the last one is over has no grants yet. */
  lemma WindowIsNew(gs: seq<Grant>, now: real)
    requires Windowed(gs) && (gs != [] ==> gs[|gs| - 1].start + WINDOW <= now)
    ensures InWindow(gs, now) == 0
  {
    NotYetUsed(gs, now);
  }

  /** Over any trace with a non-decreasing clock, a principal is granted at most 35 requests per window and
      at most 70 in any half-open minute, and its windows begin at least a minute apart. */
  lemma EdgeLimits(calls: seq<Call>, p: string, t: real)
    requires ClockOrdered(calls)
    ensures
      var gs := Granted(calls, p);
      && (forall s :: InWindow(gs, s) <= 35) && InMinute(gs, t) <= 70
      && forall i, j :: 0 <= i < j < |gs| ==> gs[i].start == gs[j].start || gs[i].start + 60.0 <= gs[j].start
  {
    TraceAgrees(calls, p);
    AtMostTwiceTheLimit(Granted(calls, p), MAX_RATE_PER_MINUTE, t);
  }

  /** The table never tracks more than 2048 principals. */
  lemma {:induction false} TableBounded(calls: seq<Call>)
    ensures |After(calls)| <= 2048
  {
    if calls != [] {
      var n := |calls| - 1;
      TableBounded(calls[..n]);
      PrunedShrinks(After(calls[..n]), calls[n].now);
    }
  }

  /** The window of a principal's last grant has not yet run for a minute. */
  ghost predicate HasOpen(calls: seq<Call>, p: string, now: real) {
    var gs := Granted(calls, p);
    gs != [] && now < gs[|gs| - 1].start + 60.0
  }

  ghost function OpenPrincipals(calls: seq<Call>, now: real): set<string> {
    set i | 0 <= i < |calls| && HasOpen(calls, calls[i].principal, now) :: calls[i].principal
  }

  lemma {:induction false} GrantedHasCalled(calls: seq<Call>, p: string)
    requires Granted(calls, p) != []
    ensures exists i :: 0 <= i < |calls| && calls[i].principal == p
  {
    var n := |calls| - 1;
    if calls[n].principal != p {
      GrantedHasCalled(calls[..n], p);
      var i :| 0 <= i < n && calls[..n][i].principal == p;
      assert calls[i].principal == p;
    }
  }

  /** The table finds a window open exactly when the grants say so. */
  lemma TrackedIsOpen(calls: seq<Call>, now: real)
    requires ClockOrdered(calls) && (calls != [] ==> calls[|calls| - 1].now <= now)
    ensures Pruned(After(calls), now).Keys == OpenPrincipals(calls, now)
    ensures forall p :: p in OpenPrincipals(calls, now) <==> HasOpen(calls, p, now)
  {
    hide Windowed, Limited, InWindow;
    forall p
      ensures p in Pruned(After(calls), now).Keys <==> HasOpen(calls, p, now)
      ensures p in OpenPrincipals(calls, now) <==> HasOpen(calls, p, now)
    {
      TraceAgrees(calls, p);
      if HasOpen(calls, p, now) {
        GrantedHasCalled(calls, p);
        var i :| 0 <= i < |calls| && calls[i].principal == p;
        assert calls[i].principal in OpenPrincipals(calls, now);
      }
    }
  }

  /** When a call is granted, from the grants so far alone: within an open window while it holds fewer than
      35 grants, and otherwise, in a new window, while fewer than 2048 principals have one open. */
  lemma GrantedIff(calls: seq<Call>, p: string, now: real)
    requires ClockOrdered(calls) && (calls != [] ==> calls[|calls| - 1].now <= now)
    ensures
      var gs := Granted(calls, p);
      var start := if HasOpen(calls, p, now) then gs[|gs| - 1].start else now;
      var passes := if HasOpen(calls, p, now) then InWindow(gs, start) < 35 else |OpenPrincipals(calls, now)| < 2048;
      Granted(calls + [Call(p, now)], p) == gs + if passes then [Grant(now, start)] else []
  {
    var all := calls + [Call(p, now)];
    assert all[..|all| - 1] == calls;
    TraceAgrees(calls, p);
    TrackedIsOpen(calls, now);
    var live := Pruned(After(calls), now);
    assert |live| == |live.Keys|;
    assert p in live <==> HasOpen(calls, p, now);
  }

  /** A principal with an open window and fewer than 35 grants in it is admitted, whoever else calls. */
  lemma OthersCannotDeny(calls: seq<Call>, p: string, now: real)
    requires ClockOrdered(calls) && (calls != [] ==> calls[|calls| - 1].now <= now)
    requires
      var gs := Granted(calls, p);
      gs != [] && now < gs[|gs| - 1].start + 60.0 && InWindow(gs, gs[|gs| - 1].start) < 35
    ensures Admitted(After(calls), p, now)
  {
    TraceAgrees(calls, p);
  }
}
