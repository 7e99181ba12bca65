/** Fixed windows of sixty seconds, whoever keeps them: what a limit per window says about any interval. */
module RateWindows {
  const WINDOW := 60.0

  /** Something granted, and when the window it fell into began. */
  datatype Grant = Grant(time: real, start: real)

  /** Grants fall inside their windows, and windows follow one another at least sixty seconds apart. */
  ghost predicate Windowed(gs: seq<Grant>) {
    && (forall i :: 0 <= i < |gs| ==> gs[i].start <= gs[i].time < gs[i].start + WINDOW)
    && (forall i, j :: 0 <= i < j < |gs| ==> gs[i].start == gs[j].start || gs[i].start + WINDOW <= gs[j].start)
  }

  /** How many grants fell into the window that began at `s`. */
  ghost function InWindow(gs: seq<Grant>, s: real): nat {
    if gs == [] then 0 else InWindow(gs[..|gs| - 1], s) + (if gs[|gs| - 1].start == s then 1 else 0)
  }

  /** How many grants fell into the sixty seconds from `t`. */
  ghost function InMinute(gs: seq<Grant>, t: real): nat {
    if gs == [] then 0 else InMinute(gs[..|gs| - 1], t) + (if t <= gs[|gs| - 1].time < t + WINDOW then 1 else 0)
  }

  ghost predicate Limited(gs: seq<Grant>, limit: nat) {
    forall s :: InWindow(gs, s) <= limit
  }

  lemma {:induction false} CoveredByTwo(gs: seq<Grant>, t: real, a: real, b: real)
    requires a != b && forall i :: 0 <= i < |gs| && t <= gs[i].time < t + WINDOW ==>
      gs[i].start == a || gs[i].start == b
    ensures InMinute(gs, t) <= InWindow(gs, a) + InWindow(gs, b)
  {
    if gs != [] {
      CoveredByTwo(gs[..|gs| - 1], t, a, b);
    }
  }

  /** Any sixty seconds meet at most two windows, the earlier one being that of the first grant in them. */
  lemma TwoWindowsMeet(gs: seq<Grant>, t: real) returns (a: real, b: real)
    requires Windowed(gs)
    ensures a != b && forall i :: 0 <= i < |gs| && t <= gs[i].time < t + WINDOW ==> gs[i].start == a || gs[i].start == b
  {
    a, b := 0.0, 1.0;
    if i :| 0 <= i < |gs| && t <= gs[i].time < t + WINDOW {
      a := gs[i].start;
      b := a + 1.0;
      if j :| 0 <= j < |gs| && t <= gs[j].time < t + WINDOW && gs[j].start != a {
        b := gs[j].start;
      }
    }
  }

  /** A limit per window is at most twice that limit in any half-open sixty seconds. */
  lemma AtMostTwiceTheLimit(gs: seq<Grant>, limit: nat, t: real)
    requires Windowed(gs) && Limited(gs, limit)
    ensures InMinute(gs, t) <= 2 * limit
  {
    var a, b := TwoWindowsMeet(gs, t);
    CoveredByTwo(gs, t, a, b);
    assert InWindow(gs, a) <= limit && InWindow(gs, b) <= limit;
  }

  lemma GrantExtends(gs: seq<Grant>, g: Grant, limit: nat)
    requires Windowed(gs) && Limited(gs, limit) && g.start <= g.time < g.start + WINDOW
    requires gs != [] ==> g.start == gs[|gs| - 1].start || gs[|gs| - 1].start + WINDOW <= g.start
    requires InWindow(gs, g.start) < limit
    ensures Windowed(gs + [g]) && Limited(gs + [g], limit)
    ensures forall s :: InWindow(gs + [g], s) == InWindow(gs, s) + (if s == g.start then 1 else 0)
  {
    var all := gs + [g];
    assert all[..|gs|] == gs;
    forall i, j | 0 <= i < j < |all| ensures all[i].start == all[j].start || all[i].start + WINDOW <= all[j].start {
      if j == |gs| && i < |gs| - 1 { assert gs[i].start == gs[|gs| - 1].start || gs[i].start
        + WINDOW <= gs[|gs| - 1].start; }
    }
  }

  lemma {:induction false} NotYetUsed(gs: seq<Grant>, s: real)
    requires forall i :: 0 <= i < |gs| ==> gs[i].start != s
    ensures InWindow(gs, s) == 0
  {
    if gs != [] { NotYetUsed(gs[..|gs| - 1], s); }
  }
}
