/** Python's stable `sorted(values, key=...)` for keys compared lexicographically
    (byte strings, or tuples that start with a rank). */
module Sorting {
  import opened Common

  predicate LexLeq(a: seq<int>, b: seq<int>) {
    a == [] || (b != [] && (a[0] < b[0] || (a[0] == b[0] && LexLeq(a[1..], b[1..]))))
  }

  lemma {:induction false} LexTotal(a: seq<int>, b: seq<int>)
    ensures LexLeq(a, b) || LexLeq(b, a)
    ensures LexLeq(a, b) && LexLeq(b, a) ==> a == b
  {
    if a != [] && b != [] && a[0] == b[0] {
      LexTotal(a[1..], b[1..]);
      assert a == [a[0]] + a[1..] && b == [b[0]] + b[1..];
    }
  }

  lemma {:induction false} LexTransitive(a: seq<int>, b: seq<int>, c: seq<int>)
    requires LexLeq(a, b) && LexLeq(b, c)
    ensures LexLeq(a, c)
  {
    if a != [] && b != [] && c != [] && a[0] == b[0] && b[0] == c[0] {
      LexTransitive(a[1..], b[1..], c[1..]);
    }
  }

  ghost predicate SortedBy<T(!new)>(s: seq<T>, key: T -> seq<int>) {
    forall i, j :: 0 <= i < j < |s| ==> LexLeq(key(s[i]), key(s[j]))
  }

  /** No two positions of `s` carry the same key. */
  ghost predicate KeysDistinct<T(!new)>(s: seq<T>, key: T -> seq<int>) {
    forall i, j :: 0 <= i < j < |s| ==> key(s[i]) != key(s[j])
  }

  function InsertBy<T>(x: T, s: seq<T>, key: T -> seq<int>): seq<T> {
    if s == [] then [x]
    else if LexLeq(key(x), key(s[0])) then [x] + s
    else [s[0]] + InsertBy(x, s[1..], key)
  }

  /** Insertion from the back keeps equal keys in their original order, as `sorted` does. */
  function SortBy<T>(s: seq<T>, key: T -> seq<int>): seq<T> {
    if s == [] then [] else InsertBy(s[0], SortBy(s[1..], key), key)
  }

  lemma {:induction false} InsertElements<T(!new)>(x: T, s: seq<T>, key: T -> seq<int>)
    ensures multiset(InsertBy(x, s, key)) == multiset{x} + multiset(s)
    ensures |InsertBy(x, s, key)| == |s| + 1
  {
    if s != [] && !LexLeq(key(x), key(s[0])) {
      InsertElements(x, s[1..], key);
      assert s == [s[0]] + s[1..];
    }
  }

  lemma InsertMembers<T(!new)>(x: T, s: seq<T>, key: T -> seq<int>, y: T)
    requires y in InsertBy(x, s, key)
    ensures y == x || y in s
  {
    InsertElements(x, s, key);
    assert y in multiset(InsertBy(x, s, key));
  }

  lemma ConsSorted<T(!new)>(x: T, s: seq<T>, key: T -> seq<int>)
    requires SortedBy(s, key)
    requires forall y | y in s :: LexLeq(key(x), key(y))
    ensures SortedBy([x] + s, key)
  {
  }

  lemma {:induction false} InsertKeeps<T(!new)>(x: T, s: seq<T>, key: T -> seq<int>)
    requires SortedBy(s, key)
    ensures SortedBy(InsertBy(x, s, key), key)
  {
    if s == [] {
    } else if LexLeq(key(x), key(s[0])) {
      forall y | y in s ensures LexLeq(key(x), key(y)) {
        var j :| 0 <= j < |s| && s[j] == y;
        if j > 0 { LexTransitive(key(x), key(s[0]), key(s[j])); }
      }
      ConsSorted(x, s, key);
    } else {
      LexTotal(key(x), key(s[0]));
      InsertKeeps(x, s[1..], key);
      forall y | y in InsertBy(x, s[1..], key) ensures LexLeq(key(s[0]), key(y)) {
        InsertMembers(x, s[1..], key, y);
      }
      ConsSorted(s[0], InsertBy(x, s[1..], key), key);
    }
  }

  lemma {:induction false} SortSorts<T(!new)>(s: seq<T>, key: T -> seq<int>)
    ensures SortedBy(SortBy(s, key), key)
    ensures multiset(SortBy(s, key)) == multiset(s)
    ensures |SortBy(s, key)| == |s|
  {
    if s != [] {
      SortSorts(s[1..], key);
      InsertKeeps(s[0], SortBy(s[1..], key), key);
      InsertElements(s[0], SortBy(s[1..], key), key);
      assert s == [s[0]] + s[1..];
    }
  }

  /** Distinctness of keys is a property of the multiset, so it survives reordering. */
  lemma KeysDistinctByMultiset<T(!new)>(a: seq<T>, b: seq<T>, key: T -> seq<int>)
    requires multiset(a) == multiset(b) && KeysDistinct(a, key)
    ensures KeysDistinct(b, key)
  {
    forall i, j | 0 <= i < j < |b| ensures key(b[i]) != key(b[j]) {
      if key(b[i]) == key(b[j]) {
        assert b[i] in multiset(a) && b[j] in multiset(a);
        var p :| 0 <= p < |a| && a[p] == b[i];
        var q :| 0 <= q < |a| && a[q] == b[j];
        assert p == q;
        TwicePresent(b, i, j);
        OncePresent(a, p, key);
      }
    }
  }

  lemma TwicePresent<T>(s: seq<T>, i: nat, j: nat)
    requires i < j < |s| && s[i] == s[j]
    ensures multiset(s)[s[i]] >= 2
  {
    assert s == s[..i] + [s[i]] + s[i + 1..j] + [s[j]] + s[j + 1..];
  }

  lemma OncePresent<T(!new)>(s: seq<T>, p: nat, key: T -> seq<int>)
    requires p < |s| && KeysDistinct(s, key)
    ensures multiset(s)[s[p]] == 1
  {
    assert s == s[..p] + [s[p]] + s[p + 1..];
    assert s[p] !in s[..p] && s[p] !in s[p + 1..];
  }

  /** The first element of a sorted sequence is below every element. */
  lemma SortedHead<T(!new)>(s: seq<T>, key: T -> seq<int>, y: T)
    requires SortedBy(s, key) && y in s
    ensures LexLeq(key(s[0]), key(y))
  {
    var j :| 0 <= j < |s| && s[j] == y;
    LexTotal(key(s[0]), key(s[0]));
  }

  lemma SameHead<T(!new)>(a: seq<T>, b: seq<T>, key: T -> seq<int>)
    requires SortedBy(a, key) && SortedBy(b, key) && KeysDistinct(a, key)
    requires a != [] && b != [] && multiset(a) == multiset(b)
    ensures a[0] == b[0]
  {
    assert a[0] in multiset(b) && b[0] in multiset(a);
    SortedHead(a, key, b[0]);
    SortedHead(b, key, a[0]);
    LexTotal(key(a[0]), key(b[0]));
  }

  /** With distinct keys a multiset has exactly one sorted arrangement. */
  lemma {:induction false} SortedUnique<T(!new)>(a: seq<T>, b: seq<T>, key: T -> seq<int>)
    requires SortedBy(a, key) && SortedBy(b, key) && KeysDistinct(a, key)
    requires multiset(a) == multiset(b)
    ensures a == b
  {
    assert |multiset(a)| == |a| && |multiset(b)| == |b|;
    if a != [] {
      SameHead(a, b, key);
      assert a == [a[0]] + a[1..] && b == [b[0]] + b[1..];
      assert multiset(a[1..]) == multiset(a) - multiset{a[0]};
      assert multiset(b[1..]) == multiset(b) - multiset{b[0]};
      SortedUnique(a[1..], b[1..], key);
    }
  }

  /** Sorting forgets the order in which distinct keys arrive. */
  lemma SortPermutation<T(!new)>(a: seq<T>, b: seq<T>, key: T -> seq<int>)
    requires multiset(a) == multiset(b) && KeysDistinct(a, key)
    ensures SortBy(a, key) == SortBy(b, key)
  {
    SortSorts(a, key);
    SortSorts(b, key);
    KeysDistinctByMultiset(a, SortBy(a, key), key);
    SortedUnique(SortBy(a, key), SortBy(b, key), key);
  }

  /** Sorting what is already sorted changes nothing. */
  lemma SortIdempotent<T(!new)>(s: seq<T>, key: T -> seq<int>)
    requires SortedBy(s, key) && KeysDistinct(s, key)
    ensures SortBy(s, key) == s
  {
    SortSorts(s, key);
    SortedUnique(s, SortBy(s, key), key);
  }
}
