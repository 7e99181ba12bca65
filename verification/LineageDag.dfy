/** The explicit-stack, three-colour depth-first search over lineage parents
    (`InteractionStore._check_parent_dag`). */
module LineageDag {
  import opened Common

  /** What the search reads of an event. */
  datatype Node = Node(id: Id, parents: seq<Id>)

  /** `by_id`: a repeated identity keeps the last record. */
  function ById(nodes: seq<Node>): (g: map<Id, seq<Id>>)
    ensures forall x :: x in g <==> exists i :: 0 <= i < |nodes| && nodes[i].id == x
  {
    if nodes == [] then map[]
    else
      var last := nodes[|nodes| - 1];
      var rest := ById(nodes[..|nodes| - 1]);
      assert forall i :: 0 <= i < |nodes| - 1 ==> nodes[i] == nodes[..|nodes| - 1][i];
      rest[last.id := last.parents]
  }

  /** Every parent is one of the records. */
  ghost predicate Closed(g: map<Id, seq<Id>>) {
    forall x, y :: x in g && y in g[x] ==> y in g
  }

  /** A walk from child to parent along recorded edges. */
  ghost predicate Walk(g: map<Id, seq<Id>>, p: seq<Id>) {
    && (forall i :: 0 <= i < |p| ==> p[i] in g)
    && (forall i :: 0 <= i < |p| - 1 ==> p[i + 1] in g[p[i]])
  }

  /** Some record is its own ancestor. */
  ghost predicate Cyclic(g: map<Id, seq<Id>>) {
    exists p :: |p| >= 2 && Walk(g, p) && p[0] == p[|p| - 1]
  }

  datatype Verdict = Accepted | LineageLoop | MissingParent

  datatype Colour = Grey | Black

  datatype Frame = Frame(id: Id, exiting: bool)

  ghost predicate IsBlack(state: map<Id, Colour>, x: Id) {
    x in state && state[x] == Black
  }

  ghost predicate IsGrey(state: map<Id, Colour>, x: Id) {
    x in state && state[x] == Grey
  }

  /** `done` lists the finished records; each record's parents finished before it. */
  ghost predicate Finished(g: map<Id, seq<Id>>, done: seq<Id>) {
    && Distinct(done)
    && (forall i :: 0 <= i < |done| ==> done[i] in g)
    && (forall i, y :: 0 <= i < |done| && y in g[done[i]] ==> y in done[..i])
  }

  ghost predicate Colours(g: map<Id, seq<Id>>, state: map<Id, Colour>, done: seq<Id>, path: seq<Id>) {
    && (forall x :: x in state ==> x in g)
    && (forall x :: IsBlack(state, x) <==> x in done)
    && (forall x :: IsGrey(state, x) <==> x in path)
  }

  /** The exit markers on the stack, bottom to top, sit at `mark` and spell the grey path. */
  ghost predicate Markers(stack: seq<Frame>, path: seq<Id>, mark: seq<int>) {
    && |mark| == |path|
    && (forall k :: 0 <= k < |mark| ==> 0 <= mark[k] < |stack| && stack[mark[k]] == Frame(path[k], true))
    && StrictlyAscending(mark)
    && (forall i :: 0 <= i < |stack| && stack[i].exiting ==> i in mark)
  }

  /** An entry frame of a grey record lies below that record's exit marker. */
  ghost predicate DuplicatesBelow(stack: seq<Frame>, path: seq<Id>, mark: seq<int>)
    requires |mark| == |path|
  {
    forall i, k :: 0 <= i < |stack| && !stack[i].exiting && 0 <= k < |path| && stack[i].id == path[k] ==> i < mark[k]
  }

  /** Position `i` lies above marker `k` and below the next marker. */
  ghost predicate Above(mark: seq<int>, k: int, i: int)
    requires 0 <= k < |mark|
  {
    mark[k] < i && (k == |mark| - 1 || i < mark[k + 1])
  }

  /** An entry frame directly above marker `k` was pushed as a parent of `path[k]`. */
  ghost predicate PushedByMarker(g: map<Id, seq<Id>>, stack: seq<Frame>, path: seq<Id>, mark: seq<int>)
    requires |mark| == |path| && forall x :: x in path ==> x in g
  {
    forall i, k | 0 <= i < |stack| && !stack[i].exiting && 0 <= k < |path| ::
      Above(mark, k, i) ==> stack[i].id in g[path[k]]
  }

  /** `y` still waits on the stack above position `low`. */
  ghost predicate Waiting(stack: seq<Frame>, low: int, y: Id) {
    exists i :: 0 <= i < |stack| && low < i && stack[i].id == y
  }

  /** The parents of `path[k]` already pushed: all of them, or for the record being expanded
      those from position `m` on (the search pushes parents last to first). */
  ghost function Pushed(g: map<Id, seq<Id>>, path: seq<Id>, k: nat, m: nat): seq<Id>
    requires k < |path| && path[k] in g && (k == |path| - 1 ==> m <= |g[path[k]]|)
  {
    if k == |path| - 1 then g[path[k]][m..] else g[path[k]]
  }

  /** Every pushed parent of a grey record is finished or waits above the record's exit marker. */
  ghost predicate ParentsPending(g: map<Id, seq<Id>>, state: map<Id, Colour>, stack: seq<Frame>, path: seq<Id>,
      mark: seq<int>, m: nat)
    requires |mark| == |path| && (forall k :: 0 <= k < |path| ==> path[k] in g)
    requires path != [] ==> m <= |g[path[|path| - 1]]|
  {
    forall k, y :: 0 <= k < |path| && y in Pushed(g, path, k, m) ==> IsBlack(state, y) || Waiting(stack, mark[k], y)
  }

  ghost predicate SearchInv(g: map<Id, seq<Id>>, state: map<Id, Colour>, stack: seq<Frame>, done: seq<Id>,
      path: seq<Id>, mark: seq<int>, m: nat) {
    && Finished(g, done)
    && Colours(g, state, done, path)
    && Markers(stack, path, mark)
    && Distinct(path) && Walk(g, path)
    && (forall i :: 0 <= i < |stack| ==> stack[i].id in g)
    && DuplicatesBelow(stack, path, mark)
    && PushedByMarker(g, stack, path, mark)
    && (path != [] ==> m <= |g[path[|path| - 1]]|)
    && ParentsPending(g, state, stack, path, mark, m)
  }

  /** A finished order leaves no room for a cycle: along a walk the finishing index only falls. */
  lemma {:induction false} WalkDescends(g: map<Id, seq<Id>>, done: seq<Id>, p: seq<Id>, i: nat)
    requires Finished(g, done) && Walk(g, p) && |p| >= 2
    requires i < |done| && done[i] == p[0]
    ensures exists j :: 0 <= j < i && done[j] == p[|p| - 1]
    decreases |p|
  {
    assert p[1] in g[p[0]];
    var j :| 0 <= j < i && done[..i][j] == p[1];
    if |p| > 2 {
      var q := p[1..];
      assert forall m :: 0 <= m < |q| - 1 ==> q[m + 1] in g[q[m]] by {
        forall m | 0 <= m < |q| - 1 ensures q[m + 1] in g[q[m]] { assert p[m + 2] in g[p[m + 1]]; }
      }
      WalkDescends(g, done, q, j);
    }
  }

  lemma AllFinishedIsAcyclic(g: map<Id, seq<Id>>, done: seq<Id>)
    requires Finished(g, done) && forall x :: x in g ==> x in done
    ensures Closed(g) && !Cyclic(g)
  {
    forall x, y | x in g && y in g[x] ensures y in g {
      var i :| 0 <= i < |done| && done[i] == x;
      assert y in done[..i];
    }
    if Cyclic(g) {
      var p :| |p| >= 2 && Walk(g, p) && p[0] == p[|p| - 1];
      assert p[0] in done;
      var i :| 0 <= i < |done| && done[i] == p[0];
      WalkDescends(g, done, p, i);
    }
  }

  /** Meeting a grey parent closes a cycle through the grey path. */
  lemma GreyParentIsCycle(g: map<Id, seq<Id>>, path: seq<Id>, k: nat)
    requires Walk(g, path) && path != [] && k < |path| && path[k] in g[path[|path| - 1]]
    ensures Cyclic(g)
  {
    var p := path[k..] + [path[k]];
    forall i | 0 <= i < |p| - 1 ensures p[i + 1] in g[p[i]] {
      if i < |p| - 2 {
        assert path[k + i + 1] in g[path[k + i]];
      }
    }
    assert Walk(g, p);
  }

  lemma GrowFinished(g: map<Id, seq<Id>>, done: seq<Id>, x: Id)
    requires Finished(g, done) && x in g && x !in done && forall y :: y in g[x] ==> y in done
    ensures Finished(g, done + [x])
  {
    var d := done + [x];
    forall i, y | 0 <= i < |d| && y in g[d[i]] ensures y in d[..i] {
      if i < |done| {
        assert d[..i] == done[..i];
      } else {
        assert d[..i] == done;
      }
    }
  }

  /** The topmost frame, when it is an exit marker, belongs to the end of the grey path. */
  lemma TopMarker(stack: seq<Frame>, path: seq<Id>, mark: seq<int>)
    requires Markers(stack, path, mark) && stack != [] && stack[|stack| - 1].exiting
    ensures path != [] && mark[|mark| - 1] == |stack| - 1 && path[|path| - 1] == stack[|stack| - 1].id
  {
    assert |stack| - 1 in mark;
    var k :| 0 <= k < |mark| && mark[k] == |stack| - 1;
    assert mark[k] <= mark[|mark| - 1] <= |stack| - 1;
  }

  /** No marker sits on top when the top frame is an entry. */
  lemma MarkersBelowTop(stack: seq<Frame>, path: seq<Id>, mark: seq<int>)
    requires Markers(stack, path, mark) && stack != [] && !stack[|stack| - 1].exiting
    ensures forall k :: 0 <= k < |mark| ==> mark[k] < |stack| - 1
  {
    forall k | 0 <= k < |mark| ensures mark[k] < |stack| - 1 {
      assert stack[mark[k]].exiting;
    }
  }

  lemma WaitingAfterPop(stack: seq<Frame>, low: int, y: Id)
    requires stack != [] && Waiting(stack, low, y) && y != stack[|stack| - 1].id
    ensures Waiting(stack[..|stack| - 1], low, y)
  {
    var i :| 0 <= i < |stack| && low < i && stack[i].id == y;
    assert stack[..|stack| - 1][i].id == y;
  }

  lemma WaitingAfterPush(stack: seq<Frame>, low: int, y: Id, f: Frame)
    requires Waiting(stack, low, y) || (low < |stack| && f.id == y)
    ensures Waiting(stack + [f], low, y)
  {
    if Waiting(stack, low, y) {
      var i :| 0 <= i < |stack| && low < i && stack[i].id == y;
      assert (stack + [f])[i].id == y;
    } else {
      assert (stack + [f])[|stack|].id == y;
    }
  }

  /** Popping the exit marker of a grey record whose parents are all finished. */
  lemma PopExit(g: map<Id, seq<Id>>, state: map<Id, Colour>, stack: seq<Frame>, done: seq<Id>, path: seq<Id>,
      mark: seq<int>)
    requires SearchInv(g, state, stack, done, path, mark, 0) && stack != [] && stack[|stack| - 1].exiting
    ensures path != [] && |mark| == |path|
    ensures
      var x := stack[|stack| - 1].id;
      SearchInv(g, state[x := Black], stack[..|stack| - 1], done + [x], path[..|path| - 1], mark[..|mark| - 1], 0)
  {
    TopMarker(stack, path, mark);
    var n := |stack| - 1;
    var x := stack[n].id;
    forall y | y in g[x] ensures y in done {
      assert y in Pushed(g, path, |path| - 1, 0);
      assert !Waiting(stack, n, y);
      assert IsBlack(state, y);
    }
    assert x !in done by { assert IsGrey(state, x); }
    GrowFinished(g, done, x);
    var path', mark', stack', state' := path[..|path| - 1], mark[..|mark| - 1], stack[..n], state[x := Black];
    PopExitColours(g, state, done, path);
    assert Markers(stack', path', mark') by {
      forall i | 0 <= i < |stack'| && stack'[i].exiting ensures i in mark' {
        assert i in mark;
        var k :| 0 <= k < |mark| && mark[k] == i;
        assert mark'[k] == i;
      }
    }
    forall k, y | 0 <= k < |path'| && y in Pushed(g, path', k, 0)
      ensures IsBlack(state', y) || Waiting(stack', mark'[k], y)
    {
      assert y in Pushed(g, path, k, 0);
      if y != x && !IsBlack(state, y) { WaitingAfterPop(stack, mark[k], y); }
    }
    PopExitFrames(g, stack, path, mark);
  }

  lemma PopExitColours(g: map<Id, seq<Id>>, state: map<Id, Colour>, done: seq<Id>, path: seq<Id>)
    requires Colours(g, state, done, path) && Distinct(path) && path != []
    ensures var x := path[|path| - 1]; Colours(g, state[x := Black], done + [x], path[..|path| - 1])
  {
    var x := path[|path| - 1];
    var state' := state[x := Black];
    assert IsGrey(state, x);
    forall y ensures IsGrey(state', y) <==> y in path[..|path| - 1] {
      if y != x { assert y in path <==> y in path[..|path| - 1]; }
    }
    forall y ensures IsBlack(state', y) <==> y in done + [x] {
      if y != x { assert IsBlack(state', y) <==> IsBlack(state, y); }
    }
  }

  lemma PopExitFrames(g: map<Id, seq<Id>>, stack: seq<Frame>, path: seq<Id>, mark: seq<int>)
    requires Markers(stack, path, mark) && path != [] && stack != [] && mark[|mark| - 1] == |stack| - 1
    requires forall x :: x in path ==> x in g
    requires DuplicatesBelow(stack, path, mark) && PushedByMarker(g, stack, path, mark)
    ensures DuplicatesBelow(stack[..|stack| - 1], path[..|path| - 1], mark[..|mark| - 1])
    ensures PushedByMarker(g, stack[..|stack| - 1], path[..|path| - 1], mark[..|mark| - 1])
  {
    var stack', path', mark' := stack[..|stack| - 1], path[..|path| - 1], mark[..|mark| - 1];
    forall i, k | 0 <= i < |stack'| && !stack'[i].exiting && 0 <= k < |path'|
      ensures Above(mark', k, i) ==> stack'[i].id in g[path'[k]]
    {
      assert stack'[i] == stack[i] && path'[k] == path[k] && mark'[k] == mark[k];
      if k < |path'| - 1 { assert mark'[k + 1] == mark[k + 1]; }
    }
  }

  /** The pop-time test for a grey record never fires. */
  lemma PoppedEntryNotGrey(g: map<Id, seq<Id>>, state: map<Id, Colour>, stack: seq<Frame>, done: seq<Id>, path: seq<Id>,
      mark: seq<int>)
    requires SearchInv(g, state, stack, done, path, mark, 0) && stack != [] && !stack[|stack| - 1].exiting
    ensures !IsGrey(state, stack[|stack| - 1].id)
  {
    MarkersBelowTop(stack, path, mark);
    var x := stack[|stack| - 1].id;
    assert forall k :: 0 <= k < |path| ==> path[k] != x;
    assert x !in path;
  }

  /** Dropping an entry frame whose record is already finished. */
  lemma PopFinished(g: map<Id, seq<Id>>, state: map<Id, Colour>, stack: seq<Frame>, done: seq<Id>, path: seq<Id>,
      mark: seq<int>)
    requires SearchInv(g, state, stack, done, path, mark, 0) && stack != [] && !stack[|stack| - 1].exiting
    requires IsBlack(state, stack[|stack| - 1].id)
    ensures SearchInv(g, state, stack[..|stack| - 1], done, path, mark, 0)
  {
    MarkersBelowTop(stack, path, mark);
    var stack' := stack[..|stack| - 1];
    forall k, y | 0 <= k < |path| && y in Pushed(g, path, k, 0)
      ensures IsBlack(state, y) || Waiting(stack', mark[k], y)
    {
      if !IsBlack(state, y) { WaitingAfterPop(stack, mark[k], y); }
    }
    assert Markers(stack', path, mark);
  }

  /** Parents pushed before the visit are still waiting or finished after it. */
  lemma VisitPushed(g: map<Id, seq<Id>>, state: map<Id, Colour>, stack: seq<Frame>, done: seq<Id>, path: seq<Id>,
      mark: seq<int>)
    requires SearchInv(g, state, stack, done, path, mark, 0) && stack != [] && !stack[|stack| - 1].exiting
    requires stack[|stack| - 1].id !in state && stack[|stack| - 1].id in g
    ensures
      var n := |stack| - 1;
      var x := stack[n].id;
      forall k, y :: 0 <= k < |path + [x]| && y in Pushed(g, path + [x], k, |g[x]|) ==>
        IsBlack(state[x := Grey], y) || Waiting(stack[..n] + [Frame(x, true)], (mark + [n])[k], y)
  {
    var n := |stack| - 1;
    var x := stack[n].id;
    var stack', path', mark', state' := stack[..n] + [Frame(x, true)], path + [x], mark + [n], state[x := Grey];
    forall k, y | 0 <= k < |path'| && y in Pushed(g, path', k, |g[x]|)
      ensures IsBlack(state', y) || Waiting(stack', mark'[k], y)
    {
      if k < |path| {
        assert y in Pushed(g, path, k, 0);
        if IsBlack(state, y) {
          assert IsBlack(state', y);
        } else {
          var i :| 0 <= i < |stack| && mark[k] < i && stack[i].id == y;
          assert stack'[i].id == y;
        }
      }
    }
  }

  /** Turning the popped white record grey and pushing its exit marker. */
  lemma Visit(g: map<Id, seq<Id>>, state: map<Id, Colour>, stack: seq<Frame>, done: seq<Id>, path: seq<Id>,
      mark: seq<int>)
    requires SearchInv(g, state, stack, done, path, mark, 0) && stack != [] && !stack[|stack| - 1].exiting
    requires stack[|stack| - 1].id !in state
    ensures
      var n := |stack| - 1;
      var x := stack[n].id;
      x in g && SearchInv(g, state[x := Grey], stack[..n] + [Frame(x, true)], done, path + [x], mark + [n], |g[x]|)
  {
    MarkersBelowTop(stack, path, mark);
    var n := |stack| - 1;
    var x := stack[n].id;
    var stack', path', mark', state' := stack[..n] + [Frame(x, true)], path + [x], mark + [n], state[x := Grey];
    assert !IsGrey(state, x) && !IsBlack(state, x);
    VisitColours(g, state, done, path, x);
    VisitMarkers(stack, path, mark, x);
    VisitFrames(g, stack, path, mark, x);
    VisitPushed(g, state, stack, done, path, mark);
    if path != [] { TopPushedByLast(g, stack, path, mark); }
    assert Walk(g, path');
  }

  lemma TopPushedByLast(g: map<Id, seq<Id>>, stack: seq<Frame>, path: seq<Id>, mark: seq<int>)
    requires Markers(stack, path, mark) && stack != [] && !stack[|stack| - 1].exiting && path != []
    requires (forall y :: y in path ==> y in g) && PushedByMarker(g, stack, path, mark)
    ensures stack[|stack| - 1].id in g[path[|path| - 1]]
  {
    MarkersBelowTop(stack, path, mark);
    var i, k := |stack| - 1, |path| - 1;
    assert Above(mark, k, i);
    assert stack[i].id in g[path[k]];
  }

  lemma VisitColours(g: map<Id, seq<Id>>, state: map<Id, Colour>, done: seq<Id>, path: seq<Id>, x: Id)
    requires Colours(g, state, done, path) && Distinct(path) && x in g && x !in state
    ensures Colours(g, state[x := Grey], done, path + [x]) && Distinct(path + [x])
  {
    var state' := state[x := Grey];
    assert !IsGrey(state, x) && !IsBlack(state, x);
    forall y ensures IsGrey(state', y) <==> y in path + [x] {
      if y != x { assert IsGrey(state', y) <==> IsGrey(state, y); }
    }
    forall y ensures IsBlack(state', y) <==> y in done {
      if y != x { assert IsBlack(state', y) <==> IsBlack(state, y); }
    }
  }

  lemma VisitMarkers(stack: seq<Frame>, path: seq<Id>, mark: seq<int>, x: Id)
    requires Markers(stack, path, mark) && stack != [] && !stack[|stack| - 1].exiting
    ensures Markers(stack[..|stack| - 1] + [Frame(x, true)], path + [x], mark + [|stack| - 1])
  {
    MarkersBelowTop(stack, path, mark);
    var n := |stack| - 1;
    var stack', mark' := stack[..n] + [Frame(x, true)], mark + [n];
    forall i | 0 <= i < |stack'| && stack'[i].exiting ensures i in mark' {
      if i < n {
        assert stack[i].exiting && i in mark;
        var k :| 0 <= k < |mark| && mark[k] == i;
        assert mark'[k] == i;
      } else {
        assert mark'[|mark|] == n;
      }
    }
  }

  lemma VisitFrames(g: map<Id, seq<Id>>, stack: seq<Frame>, path: seq<Id>, mark: seq<int>, x: Id)
    requires Markers(stack, path, mark) && stack != [] && !stack[|stack| - 1].exiting
    requires x in g && forall y :: y in path ==> y in g
    requires DuplicatesBelow(stack, path, mark) && PushedByMarker(g, stack, path, mark)
    ensures forall y :: y in path + [x] ==> y in g
    ensures DuplicatesBelow(stack[..|stack| - 1] + [Frame(x, true)], path + [x], mark + [|stack| - 1])
    ensures PushedByMarker(g, stack[..|stack| - 1] + [Frame(x, true)], path + [x], mark + [|stack| - 1])
  {
    MarkersBelowTop(stack, path, mark);
    var n := |stack| - 1;
    var stack', path', mark' := stack[..n] + [Frame(x, true)], path + [x], mark + [n];
    forall i, k | 0 <= i < |stack'| && !stack'[i].exiting && 0 <= k < |path'| && stack'[i].id == path'[k]
      ensures i < mark'[k]
    {
      assert i < n && stack'[i] == stack[i];
      if k < |path| { assert stack[i].id == path[k]; }
    }
    forall i, k | 0 <= i < |stack'| && !stack'[i].exiting && 0 <= k < |path'| && Above(mark', k, i)
      ensures stack'[i].id in g[path'[k]]
    {
      assert i < n && stack'[i] == stack[i];
      assert k < |path| && path'[k] == path[k] && mark'[k] == mark[k];
      assert Above(mark, k, i) by {
        if k < |path| - 1 { assert mark'[k + 1] == mark[k + 1]; }
      }
    }
  }

  /** Handling the next parent (last to first) of the record being expanded. */
  lemma PushParent(g: map<Id, seq<Id>>, state: map<Id, Colour>, stack: seq<Frame>, done: seq<Id>, path: seq<Id>,
      mark: seq<int>, m: nat)
    requires SearchInv(g, state, stack, done, path, mark, m + 1) && path != []
    requires m < |g[path[|path| - 1]]|
    ensures
      var q := g[path[|path| - 1]][m];
      (IsBlack(state, q) ==> SearchInv(g, state, stack, done, path, mark, m)) &&
      (q in g && q !in state ==> SearchInv(g, state, stack + [Frame(q, false)], done, path, mark, m))
  {
    var x := path[|path| - 1];
    var q := g[x][m];
    assert g[x][m..] == [q] + g[x][m + 1..];
    forall k, y | 0 <= k < |path| && y in Pushed(g, path, k, m) && y != q
      ensures y in Pushed(g, path, k, m + 1)
    {
    }
    if IsBlack(state, q) {
      assert ParentsPending(g, state, stack, path, mark, m);
    }
    if q in g && q !in state {
      assert !IsGrey(state, q);
      var stack' := stack + [Frame(q, false)];
      forall k, y | 0 <= k < |path| && y in Pushed(g, path, k, m)
        ensures IsBlack(state, y) || Waiting(stack', mark[k], y)
      {
        if !IsBlack(state, y) { WaitingAfterPush(stack, mark[k], y, Frame(q, false)); }
      }
      PushFrames(g, stack, path, mark, q);
    }
  }

  lemma PushFrames(g: map<Id, seq<Id>>, stack: seq<Frame>, path: seq<Id>, mark: seq<int>, q: Id)
    requires Markers(stack, path, mark) && path != [] && forall y :: y in path ==> y in g
    requires q in g[path[|path| - 1]] && q !in path
    requires DuplicatesBelow(stack, path, mark) && PushedByMarker(g, stack, path, mark)
    ensures Markers(stack + [Frame(q, false)], path, mark)
    ensures DuplicatesBelow(stack + [Frame(q, false)], path, mark)
    ensures PushedByMarker(g, stack + [Frame(q, false)], path, mark)
  {
    var stack' := stack + [Frame(q, false)];
    forall i, k | 0 <= i < |stack'| && !stack'[i].exiting && 0 <= k < |path|
      ensures Above(mark, k, i) ==> stack'[i].id in g[path[k]]
      ensures stack'[i].id == path[k] ==> i < mark[k]
    {
      if i < |stack| {
        assert stack'[i] == stack[i];
      }
    }
  }

  ghost predicate RootPending(state: map<Id, Colour>, stack: seq<Frame>, root: Id) {
    IsBlack(state, root) || Waiting(stack, -1, root)
  }

  lemma RootPendingAfterPop(state: map<Id, Colour>, state': map<Id, Colour>, stack: seq<Frame>, root: Id)
    requires RootPending(state, stack, root) && stack != []
    requires state' == state || state' == state[stack[|stack| - 1].id := Black]
    requires IsBlack(state', stack[|stack| - 1].id)
    ensures RootPending(state', stack[..|stack| - 1], root)
  {
    if !IsBlack(state, root) && root != stack[|stack| - 1].id { WaitingAfterPop(stack, -1, root); }
  }

  lemma RootPendingAfterVisit(state: map<Id, Colour>, stack: seq<Frame>, root: Id)
    requires RootPending(state, stack, root) && stack != [] && stack[|stack| - 1].id !in state
    ensures
      var x := stack[|stack| - 1].id;
      RootPending(state[x := Grey], stack[..|stack| - 1] + [Frame(x, true)], root)
  {
    var x := stack[|stack| - 1].id;
    if Waiting(stack, -1, root) {
      var i :| 0 <= i < |stack| && -1 < i && stack[i].id == root;
      assert (stack[..|stack| - 1] + [Frame(x, true)])[i].id == root;
    } else {
      assert IsBlack(state[x := Grey], root);
    }
  }

  lemma RootPendingAfterPush(state: map<Id, Colour>, stack: seq<Frame>, root: Id, f: Frame)
    requires RootPending(state, stack, root)
    ensures RootPending(state, stack + [f], root)
  {
    if !IsBlack(state, root) { WaitingAfterPush(stack, -1, root, f); }
  }

  lemma EmptySearch(g: map<Id, seq<Id>>)
    ensures SearchInv(g, map[], [], [], [], [], 0)
  {
  }

  lemma CompleteSearch(nodes: seq<Node>, state: map<Id, Colour>, done: seq<Id>)
    requires SearchInv(ById(nodes), state, [], done, [], [], 0)
    requires forall i :: 0 <= i < |nodes| ==> IsBlack(state, nodes[i].id)
    ensures Closed(ById(nodes)) && !Cyclic(ById(nodes))
  {
    AllFinishedIsAcyclic(ById(nodes), done);
  }

  lemma StartSearch(g: map<Id, seq<Id>>, state: map<Id, Colour>, done: seq<Id>, root: Id)
    requires SearchInv(g, state, [], done, [], [], 0) && root in g
    ensures SearchInv(g, state, [Frame(root, false)], done, [], [], 0)
    ensures RootPending(state, [Frame(root, false)], root)
  {
    assert [Frame(root, false)][0].id == root;
  }

  lemma EndSearch(g: map<Id, seq<Id>>, state: map<Id, Colour>, done: seq<Id>, path: seq<Id>, mark: seq<int>, root: Id)
    requires SearchInv(g, state, [], done, path, mark, 0) && RootPending(state, [], root)
    ensures path == [] && mark == [] && IsBlack(state, root)
  {
    if path != [] { assert false; }
  }

  lemma GreyInState(g: map<Id, seq<Id>>, state: map<Id, Colour>, stack: seq<Frame>, done: seq<Id>, path: seq<Id>,
      mark: seq<int>, m: nat, q: Id)
    requires SearchInv(g, state, stack, done, path, mark, m) && path != [] && IsGrey(state, q)
    requires q in g[path[|path| - 1]]
    ensures Cyclic(g)
  {
    assert q in path;
    var k :| 0 <= k < |path| && path[k] == q;
    GreyParentIsCycle(g, path, k);
  }

  /** Pushes the parents of the record just turned grey, last to first. */
  method PushParents(byId: map<Id, seq<Id>>, state: map<Id, Colour>, before: seq<Frame>, ghost done: seq<Id>,
      ghost path: seq<Id>, ghost mark: seq<int>, ghost root: Id)
    returns (verdict: Verdict, stack: seq<Frame>)
    requires before != [] && path != [] && before[|before| - 1].id == path[|path| - 1] && path[|path| - 1] in byId
    requires SearchInv(byId, state, before, done, path, mark, |byId[path[|path| - 1]]|)
    requires RootPending(state, before, root)
    ensures verdict == Accepted ==>
      SearchInv(byId, state, stack, done, path, mark, 0) && RootPending(state, stack, root)
    ensures verdict == LineageLoop ==> Cyclic(byId)
    ensures verdict == MissingParent ==> !Closed(byId)
  {
    hide SearchInv, RootPending, Closed, Cyclic;
    stack := before;
    var x := before[|before| - 1].id;
    var parents := byId[x];
    var m := |parents|;
    while m > 0
      invariant 0 <= m <= |parents|
      invariant SearchInv(byId, state, stack, done, path, mark, m)
      invariant RootPending(state, stack, root)
    {
      m := m - 1;
      var parent := parents[m];
      if parent !in byId {
        MissingBreaksClosed(byId, x, parent);
        return MissingParent, stack;
      }
      if parent in state && state[parent] == Grey {
        GreyInState(byId, state, stack, done, path, mark, m + 1, parent);
        return LineageLoop, stack;
      }
      PushParent(byId, state, stack, done, path, mark, m);
      if !(parent in state && state[parent] == Black) {
        RootPendingAfterPush(state, stack, root, Frame(parent, false));
        stack := stack + [Frame(parent, false)];
      }
    }
    verdict := Accepted;
  }

  lemma MissingBreaksClosed(g: map<Id, seq<Id>>, x: Id, y: Id)
    requires x in g && y in g[x] && y !in g
    ensures !Closed(g)
  {
  }

  ghost predicate StillBlack(before: map<Id, Colour>, state: map<Id, Colour>) {
    forall x :: IsBlack(before, x) ==> IsBlack(state, x)
  }

  /** Everything one round of the outer loop keeps. */
  ghost predicate RoundInv(g: map<Id, seq<Id>>, before: map<Id, Colour>, root: Id, state: map<Id, Colour>,
      stack: seq<Frame>, done: seq<Id>, path: seq<Id>, mark: seq<int>) {
    SearchInv(g, state, stack, done, path, mark, 0) && RootPending(state, stack, root) && StillBlack(before, state)
  }

  ghost function Budget(g: map<Id, seq<Id>>, state: map<Id, Colour>): nat {
    |g.Keys - state.Keys|
  }

  lemma ExitRound(g: map<Id, seq<Id>>, before: map<Id, Colour>, root: Id, state: map<Id, Colour>, stack: seq<Frame>,
      done: seq<Id>, path: seq<Id>, mark: seq<int>)
    requires RoundInv(g, before, root, state, stack, done, path, mark) && stack != [] && stack[|stack| - 1].exiting
    ensures |path| == |mark| > 0
    ensures
      var x := stack[|stack| - 1].id;
      && RoundInv(g, before, root, state[x := Black], stack[..|stack| - 1], done + [x], path[..|path| - 1],
        mark[..|mark| - 1])
      && Budget(g, state[x := Black]) == Budget(g, state)
  {
    PopExit(g, state, stack, done, path, mark);
    TopMarker(stack, path, mark);
    var x := stack[|stack| - 1].id;
    RootPendingAfterPop(state, state[x := Black], stack, root);
    assert IsGrey(state, x);
    assert state[x := Black].Keys == state.Keys;
  }

  lemma DropRound(g: map<Id, seq<Id>>, before: map<Id, Colour>, root: Id, state: map<Id, Colour>, stack: seq<Frame>,
      done: seq<Id>, path: seq<Id>, mark: seq<int>)
    requires RoundInv(g, before, root, state, stack, done, path, mark) && stack != [] && !stack[|stack| - 1].exiting
    ensures !IsGrey(state, stack[|stack| - 1].id)
    ensures IsBlack(state, stack[|stack| - 1].id)
      ==> RoundInv(g, before, root, state, stack[..|stack| - 1], done, path, mark)
  {
    PoppedEntryNotGrey(g, state, stack, done, path, mark);
    if IsBlack(state, stack[|stack| - 1].id) {
      PopFinished(g, state, stack, done, path, mark);
      RootPendingAfterPop(state, state, stack, root);
    }
  }

  lemma VisitRound(g: map<Id, seq<Id>>, before: map<Id, Colour>, root: Id, state: map<Id, Colour>, stack: seq<Frame>,
      done: seq<Id>, path: seq<Id>, mark: seq<int>)
    requires RoundInv(g, before, root, state, stack, done, path, mark) && stack != [] && !stack[|stack| - 1].exiting
    requires stack[|stack| - 1].id !in state
    ensures
      var n := |stack| - 1;
      var x := stack[n].id;
      && x in g
      && SearchInv(g, state[x := Grey], stack[..n] + [Frame(x, true)], done, path + [x], mark + [n], |g[x]|)
      && RootPending(state[x := Grey], stack[..n] + [Frame(x, true)], root)
      && StillBlack(before, state[x := Grey])
      && Budget(g, state[x := Grey]) < Budget(g, state)
  {
    var x := stack[|stack| - 1].id;
    Visit(g, state, stack, done, path, mark);
    RootPendingAfterVisit(state, stack, root);
    assert g.Keys - state[x := Grey].Keys == (g.Keys - state.Keys) - {x};
    assert x in g.Keys - state.Keys;
    assert !IsBlack(state, x);
  }

  /** The inner loop: everything reachable from `root` becomes black, or a defect is found. */
  method Explore(byId: map<Id, seq<Id>>, root: Id, before: map<Id, Colour>, ghost finished: seq<Id>)
    returns (verdict: Verdict, state: map<Id, Colour>, ghost done: seq<Id>)
    requires root in byId && SearchInv(byId, before, [], finished, [], [], 0)
    ensures verdict == Accepted ==> SearchInv(byId, state, [], done, [], [], 0) && IsBlack(state, root)
    ensures verdict == Accepted ==> StillBlack(before, state)
    ensures verdict == LineageLoop ==> Cyclic(byId)
    ensures verdict == MissingParent ==> !Closed(byId)
  {
    hide RoundInv, SearchInv, RootPending, StillBlack, Budget, Closed, Cyclic, IsBlack, IsGrey;
    state, done := before, finished;
    var stack := [Frame(root, false)];
    ghost var path: seq<Id> := [];
    ghost var mark: seq<int> := [];
    StartRound(byId, state, done, root);
    while stack != []
      invariant RoundInv(byId, before, root, state, stack, done, path, mark)
      decreases Budget(byId, state), |stack|
    {
      var frame := stack[|stack| - 1];
      var rest := stack[..|stack| - 1];
      var x := frame.id;
      ColourOf(state, x);
      if frame.exiting {
        ExitRound(byId, before, root, state, stack, done, path, mark);
        state, stack := state[x := Black], rest;
        done, path, mark := done + [x], path[..|path| - 1], mark[..|mark| - 1];
        continue;
      }
      if x in state && state[x] == Grey {
        DropRound(byId, before, root, state, stack, done, path, mark);
        assert false;
      }
      if x in state && state[x] == Black {
        DropRound(byId, before, root, state, stack, done, path, mark);
        stack := rest;
        continue;
      }
      VisitRound(byId, before, root, state, stack, done, path, mark);
      state, stack := state[x := Grey], rest + [Frame(x, true)];
      path, mark := path + [x], mark + [|rest|];
      verdict, stack := PushParents(byId, state, stack, done, path, mark, root);
      if verdict != Accepted {
        return;
      }
      MakeRound(byId, before, root, state, stack, done, path, mark);
    }
    verdict := Accepted;
    FinishRound(byId, before, root, state, done, path, mark);
  }

  lemma StartRound(g: map<Id, seq<Id>>, before: map<Id, Colour>, finished: seq<Id>, root: Id)
    requires root in g && SearchInv(g, before, [], finished, [], [], 0)
    ensures RoundInv(g, before, root, before, [Frame(root, false)], finished, [], [])
  {
    StartSearch(g, before, finished, root);
  }

  lemma ColourOf(state: map<Id, Colour>, x: Id)
    ensures IsBlack(state, x) <==> x in state && state[x] == Black
    ensures IsGrey(state, x) <==> x in state && state[x] == Grey
  {
  }

  lemma MakeRound(g: map<Id, seq<Id>>, before: map<Id, Colour>, root: Id, state: map<Id, Colour>, stack: seq<Frame>,
      done: seq<Id>, path: seq<Id>, mark: seq<int>)
    requires SearchInv(g, state, stack, done, path, mark, 0) && RootPending(state, stack, root)
      && StillBlack(before, state)
    ensures RoundInv(g, before, root, state, stack, done, path, mark)
  {
  }

  lemma FinishRound(g: map<Id, seq<Id>>, before: map<Id, Colour>, root: Id, state: map<Id, Colour>, done: seq<Id>,
      path: seq<Id>, mark: seq<int>)
    requires RoundInv(g, before, root, state, [], done, path, mark)
    ensures SearchInv(g, state, [], done, [], [], 0) && IsBlack(state, root) && StillBlack(before, state)
  {
    EndSearch(g, state, done, path, mark, root);
  }

  /** Accepts exactly the record lists whose parents are all present and whose parent relation is
      acyclic; a rejection names a defect that is really there. */
  method CheckParentDag(nodes: seq<Node>) returns (verdict: Verdict)
    ensures verdict == Accepted <==> Closed(ById(nodes)) && !Cyclic(ById(nodes))
    ensures verdict == LineageLoop ==> Cyclic(ById(nodes))
    ensures verdict == MissingParent ==> !Closed(ById(nodes))
  {
    hide SearchInv;
    var byId := ById(nodes);
    EmptySearch(byId);
    var state: map<Id, Colour> := map[];
    ghost var done: seq<Id> := [];
    for r := 0 to |nodes|
      invariant SearchInv(byId, state, [], done, [], [], 0)
      invariant forall i :: 0 <= i < r ==> IsBlack(state, nodes[i].id)
    {
      var root := nodes[r].id;
      if !(root in state && state[root] == Black) {
        verdict, state, done := Explore(byId, root, state, done);
        if verdict != Accepted {
          return;
        }
      }
    }
    CompleteSearch(nodes, state, done);
    return Accepted;
  }
}
