/** The loops of `_reconstruct` in `storage/ark_recovery_bundle.py` that take the entries a bootstrap lists,
    name each record and write it to a new file. */
module ArkRunInstall {
  import opened Common
  import opened Vault
  import opened RunLog
  import opened ArkRunBundle
  import Sorting

  // ----- lists of paths -----

  lemma SortedPathsAre(paths: seq<Bytes>)
    ensures forall b :: b in SortedPaths(paths) <==> b in paths
    ensures Distinct(paths) ==> Distinct(SortedPaths(paths))
  {
    var s := SortedPaths(paths);
    Sorting.SortSorts(paths, PathKey());
    forall b ensures b in s <==> b in paths {
      assert b in s <==> b in multiset(s);
      assert b in paths <==> b in multiset(paths);
    }
    if Distinct(paths) {
      assert Sorting.KeysDistinct(paths, PathKey());
      Sorting.KeysDistinctByMultiset(paths, s, PathKey());
      forall i, j | 0 <= i < j < |s| ensures s[i] != s[j] { assert PathKey()(s[i]) != PathKey()(s[j]); }
    }
  }

  lemma CountDistinct<T>(s: seq<T>, x: T)
    requires Distinct(s)
    ensures multiset(s)[x] == if x in s then 1 else 0
  {
    if x in s {
      var i :| 0 <= i < |s| && s[i] == x;
      assert s == s[..i] + [x] + s[i + 1..];
      assert x !in s[..i] && x !in s[i + 1..];
    } else {
      assert x !in multiset(s);
    }
  }

  lemma DistinctSame<T>(a: seq<T>, b: seq<T>)
    requires Distinct(a) && Distinct(b) && forall x :: x in a <==> x in b
    ensures multiset(a) == multiset(b)
  {
    forall x ensures multiset(a)[x] == multiset(b)[x] {
      CountDistinct(a, x);
      CountDistinct(b, x);
    }
  }

  function Without(paths: seq<Bytes>, b: Bytes): seq<Bytes> {
    if paths == [] then []
      else Without(paths[..|paths| - 1], b) + (if paths[|paths| - 1] == b then [] else [paths[|paths| - 1]])
  }

  lemma {:induction false} WithoutIs(paths: seq<Bytes>, b: Bytes)
    ensures forall x :: x in Without(paths, b) <==> x in paths && x != b
    ensures Distinct(paths) ==> Distinct(Without(paths, b))
  {
    if paths != [] {
      var front, last := paths[..|paths| - 1], [paths[|paths| - 1]];
      WithoutIs(front, b);
      assert paths == front + last;
      DistinctConcat(front, last);
      DistinctConcat(Without(front, b), last);
    }
  }

  function EntryPaths(es: seq<Entry>): seq<Bytes> {
    seq(|es|, i requires 0 <= i < |es| => es[i].path)
  }

  // ----- installing records -----

  predicate Present<V>(m: map<Bytes, Entry>, paths: seq<Bytes>, reader: (Bytes, Bytes) -> Option<(Id, V)>) {
    forall i :: 0 <= i < |paths| ==> paths[i] in m && reader(paths[i], m[paths[i]].data).Some?
  }

  function Got<V>(m: map<Bytes, Entry>, paths: seq<Bytes>, reader: (Bytes, Bytes) -> Option<(Id, V)>, i: nat): (Id, V)
    requires Present(m, paths, reader) && i < |paths|
  {
    reader(paths[i], m[paths[i]].data).value
  }

  ghost predicate Installable<V>(m: map<Bytes, Entry>, paths: seq<Bytes>, reader: (Bytes, Bytes) -> Option<(Id, V)>) {
    Present(m, paths, reader) && forall i: nat, j: nat :: i < j < |paths| ==>
      Got(m, paths, reader, i).0 != Got(m, paths, reader, j).0
  }

  ghost predicate Installs<V>(m: map<Bytes, Entry>, paths: seq<Bytes>, reader: (Bytes, Bytes) -> Option<(Id, V)>,
      target: map<Id, V>, list: seq<V>) {
    && Present(m, paths, reader) && |list| == |paths|
    && (forall i: nat :: i < |paths| ==>
      Got(m, paths, reader, i).0 in target && target[Got(m, paths, reader, i).0] == Got(m, paths, reader, i).1)
    && (forall i: nat :: i < |paths| ==> list[i] == Got(m, paths, reader, i).1)
    && (forall k :: k in target ==> exists i: nat :: i < |paths| && Got(m, paths, reader, i).0 == k)
  }

  /** The loop that takes the listed entries, names each record and writes it to a new file. */
  method Install<V>(m: map<Bytes, Entry>, paths: seq<Bytes>, reader: (Bytes, Bytes) -> Option<(Id, V)>)
      returns (r: Option<(map<Id, V>, seq<V>)>)
    ensures r.Some? <==> Installable(m, paths, reader)
    ensures r.Some? ==> Installs(m, paths, reader, r.value.0, r.value.1)
  {
    var target: map<Id, V> := map[];
    var list: seq<V> := [];
    for i := 0 to |paths|
      invariant Installs(m, paths[..i], reader, target, list) && Installable(m, paths[..i], reader)
    {
      var b := paths[i];
      if b !in m {
        return None;
      }
      var got := reader(b, m[b].data);
      if got.None? {
        return None;
      }
      if got.value.0 in target {
        assert exists j: nat :: j < i && Got(m, paths[..i], reader, j).0 == got.value.0;
        Repeated(m, paths, reader, i);
        return None;
      }
      OneMore(m, paths, reader, i, target, list);
      target := target[got.value.0 := got.value.1];
      list := list + [got.value.1];
    }
    assert paths[..|paths|] == paths;
    r := Some((target, list));
  }

  lemma Repeated<V>(m: map<Bytes, Entry>, paths: seq<Bytes>, reader: (Bytes, Bytes) -> Option<(Id, V)>, i: nat)
    requires i < |paths| && Present(m, paths[..i], reader) && paths[i] in m && reader(paths[i], m[paths[i]].data).Some?
    requires exists j: nat :: j < i && Got(m, paths[..i], reader, j).0 == reader(paths[i], m[paths[i]].data).value.0
    ensures !Installable(m, paths, reader)
  {
    var j: nat :| j < i && Got(m, paths[..i], reader, j).0 == reader(paths[i], m[paths[i]].data).value.0;
    if Present(m, paths, reader) {
      assert Got(m, paths, reader, j).0 == Got(m, paths, reader, i).0;
    }
  }

  lemma OneMore<V>(m: map<Bytes, Entry>, paths: seq<Bytes>, reader: (Bytes, Bytes) -> Option<(Id, V)>, i: nat,
      target: map<Id, V>, list: seq<V>)
    requires i < |paths| && Installs(m, paths[..i], reader, target, list) && Installable(m, paths[..i], reader)
    requires paths[i] in m && reader(paths[i], m[paths[i]].data).Some?
      && reader(paths[i], m[paths[i]].data).value.0 !in target
    ensures
      var got := reader(paths[i], m[paths[i]].data).value;
      Installs(m, paths[..i + 1], reader, target[got.0 := got.1], list + [got.1])
        && Installable(m, paths[..i + 1], reader)
  {
    var now, next := paths[..i], paths[..i + 1];
    var got := reader(paths[i], m[paths[i]].data).value;
    StillPresent(m, paths, reader, i);
    hide Got, Present;
    var target', list' := target[got.0 := got.1], list + [got.1];
    assert |next| == |now| + 1 && |now| == |list|;
    forall j: nat | j < |next|
      ensures Got(m, next, reader, j).0 in target' && target'[Got(m, next, reader, j).0] == Got(m, next, reader, j).1
      ensures list'[j] == Got(m, next, reader, j).1 && (j < i ==> Got(m, next, reader, j).0 != got.0)
    {
      if j < i { assert Got(m, next, reader, j) == Got(m, now, reader, j); }
    }
    forall k | k in target' ensures exists j: nat :: j < |next| && Got(m, next, reader, j).0 == k {
      if k != got.0 {
        var j: nat :| j < |now| && Got(m, now, reader, j).0 == k;
        assert Got(m, next, reader, j).0 == k;
      } else {
        assert Got(m, next, reader, i).0 == k;
      }
    }
  }

  lemma StillPresent<V>(m: map<Bytes, Entry>, paths: seq<Bytes>, reader: (Bytes, Bytes) -> Option<(Id, V)>, i: nat)
    requires i < |paths| && Present(m, paths[..i], reader) && paths[i] in m && reader(paths[i], m[paths[i]].data).Some?
    ensures Present(m, paths[..i + 1], reader)
    ensures forall j: nat :: j < i ==> Got(m, paths[..i + 1], reader, j) == Got(m, paths[..i], reader, j)
    ensures Got(m, paths[..i + 1], reader, i) == reader(paths[i], m[paths[i]].data).value
  {
    assert forall j :: 0 <= j < i ==> paths[..i + 1][j] == paths[..i][j];
  }

  /** One record on its way: where it travels, what it will be called, what it is. */
  datatype Parcel<V> = Parcel(path: Bytes, id: Id, value: V)

  ghost predicate Delivered<V>(m: map<Bytes, Entry>, parcels: seq<Parcel<V>>,
      reader: (Bytes, Bytes) -> Option<(Id, V)>) {
    && (forall i :: 0 <= i < |parcels| ==>
      parcels[i].path in m
      && reader(parcels[i].path, m[parcels[i].path].data) == Some((parcels[i].id, parcels[i].value)))
    && (forall i, j :: 0 <= i < j < |parcels| ==> parcels[i].path != parcels[j].path && parcels[i].id != parcels[j].id)
  }

  function ParcelPaths<V>(parcels: seq<Parcel<V>>): seq<Bytes> {
    seq(|parcels|, i requires 0 <= i < |parcels| => parcels[i].path)
  }

  /** The list names every parcel once, in whatever order. */
  ghost predicate Lists<V>(paths: seq<Bytes>, parcels: seq<Parcel<V>>) {
    Distinct(paths) && forall b :: b in paths <==> b in ParcelPaths(parcels)
  }

  lemma ParcelAt<V>(m: map<Bytes, Entry>, parcels: seq<Parcel<V>>, reader: (Bytes, Bytes) -> Option<(Id, V)>,
      paths: seq<Bytes>, b: Bytes) returns (k: nat)
    requires Delivered(m, parcels, reader) && Lists(paths, parcels) && b in paths
    ensures k < |parcels| && parcels[k].path == b && b in m
      && reader(b, m[b].data) == Some((parcels[k].id, parcels[k].value))
  {
    assert b in ParcelPaths(parcels);
    k :| 0 <= k < |parcels| && ParcelPaths(parcels)[k] == b;
  }

  /** What has been delivered can be installed, whatever the order of the list. */
  lemma DeliveredInstalls<V>(m: map<Bytes, Entry>, parcels: seq<Parcel<V>>, reader: (Bytes, Bytes) -> Option<(Id, V)>,
      paths: seq<Bytes>)
    requires Delivered(m, parcels, reader) && Lists(paths, parcels)
    ensures Installable(m, paths, reader)
  {
    forall i | 0 <= i < |paths| ensures paths[i] in m && reader(paths[i], m[paths[i]].data).Some? {
      var k := ParcelAt(m, parcels, reader, paths, paths[i]);
    }
    forall i: nat, j: nat | i < j < |paths| ensures Got(m, paths, reader, i).0 != Got(m, paths, reader, j).0 {
      var a := ParcelAt(m, parcels, reader, paths, paths[i]);
      var b := ParcelAt(m, parcels, reader, paths, paths[j]);
    }
  }

  /** Each record is then found under its name, and nothing else is. */
  lemma InstalledAre<V>(m: map<Bytes, Entry>, parcels: seq<Parcel<V>>, reader: (Bytes, Bytes) -> Option<(Id, V)>,
      paths: seq<Bytes>, target: map<Id, V>, list: seq<V>)
    requires Delivered(m, parcels, reader) && Lists(paths, parcels) && Installs(m, paths, reader, target, list)
    ensures forall i :: 0 <= i < |parcels| ==> parcels[i].id in target && target[parcels[i].id] == parcels[i].value
    ensures forall k :: k in target ==> exists i :: 0 <= i < |parcels| && parcels[i].id == k
  {
    forall i | 0 <= i < |parcels| ensures parcels[i].id in target && target[parcels[i].id] == parcels[i].value {
      ParcelInstalled(m, parcels, reader, paths, target, list, i);
    }
    forall k | k in target ensures exists i :: 0 <= i < |parcels| && parcels[i].id == k {
      var j: nat :| j < |paths| && Got(m, paths, reader, j).0 == k;
      var i := ParcelAt(m, parcels, reader, paths, paths[j]);
    }
  }

  lemma ParcelInstalled<V>(m: map<Bytes, Entry>, parcels: seq<Parcel<V>>, reader: (Bytes, Bytes) -> Option<(Id, V)>,
      paths: seq<Bytes>, target: map<Id, V>, list: seq<V>, i: nat)
    requires Delivered(m, parcels, reader) && Lists(paths, parcels) && Installs(m, paths, reader, target, list)
      && i < |parcels|
    ensures parcels[i].id in target && target[parcels[i].id] == parcels[i].value && parcels[i].value in list
  {
    var b := parcels[i].path;
    assert ParcelPaths(parcels)[i] == b;
    assert b in paths;
    var j: nat :| j < |paths| && paths[j] == b;
    assert Got(m, paths, reader, j) == (parcels[i].id, parcels[i].value);
    assert list[j] == parcels[i].value;
  }

  /** The records come back as a list that holds each of them once. */
  lemma ListedOnce<V>(m: map<Bytes, Entry>, parcels: seq<Parcel<V>>, reader: (Bytes, Bytes) -> Option<(Id, V)>,
      paths: seq<Bytes>, target: map<Id, V>, list: seq<V>, values: seq<V>)
    requires Delivered(m, parcels, reader) && Lists(paths, parcels) && Installs(m, paths, reader, target, list)
    requires |values| == |parcels| && Distinct(values) && forall i :: 0 <= i < |values| ==>
      values[i] == parcels[i].value
    ensures multiset(list) == multiset(values)
  {
    forall i: nat | i < |list| ensures list[i] in values {
      var k := ListedParcel(m, parcels, reader, paths, target, list, i);
      assert values[k] == list[i];
    }
    forall x | x in values ensures x in list {
      var i :| 0 <= i < |values| && values[i] == x;
      ParcelInstalled(m, parcels, reader, paths, target, list, i);
    }
    forall i: nat, j: nat | i < j < |list| ensures list[i] != list[j] {
      var a := ListedParcel(m, parcels, reader, paths, target, list, i);
      var b := ListedParcel(m, parcels, reader, paths, target, list, j);
      assert list[i] == values[a] && list[j] == values[b];
    }
    DistinctSame(list, values);
  }

  lemma ListedParcel<V>(m: map<Bytes, Entry>, parcels: seq<Parcel<V>>, reader: (Bytes, Bytes) -> Option<(Id, V)>,
      paths: seq<Bytes>, target: map<Id, V>, list: seq<V>, i: nat) returns (k: nat)
    requires Delivered(m, parcels, reader) && Lists(paths, parcels) && Installs(m, paths, reader, target, list)
      && i < |list|
    ensures k < |parcels| && parcels[k].value == list[i] && parcels[k].path == paths[i]
  {
    k := ParcelAt(m, parcels, reader, paths, paths[i]);
    assert Got(m, paths, reader, i).1 == parcels[k].value;
  }
}
