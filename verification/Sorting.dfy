/** Sequences of distinct keys sorted by an age: without ties there is only one. */
module Sorting {

  predicate Distinct(ids: seq<string>) {
    forall i, j :: 0 <= i < j < |ids| ==> ids[i] != ids[j]
  }

  predicate Covers(ages: map<string, int>, ids: seq<string>) {
    forall id :: id in ids ==> id in ages
  }

  predicate Descending(ages: map<string, int>, ids: seq<string>)
    requires Covers(ages, ids)
  {
    forall i, j :: 0 <= i < j < |ids| ==> ages[ids[i]] >= ages[ids[j]]
  }

  /** Two keys of the sequence with the same age are the same. */
  predicate NoTies(ages: map<string, int>, ids: seq<string>)
    requires Covers(ages, ids)
  {
    forall x, y :: x in ids && y in ids && ages[x] == ages[y] ==> x == y
  }

  lemma BothEmpty(a: seq<string>, b: seq<string>)
    requires forall id :: id in a <==> id in b
    ensures a == [] ==> b == []
  {
    if b != [] { assert b[0] in b; }
  }

  lemma FirstIsGreatest(ages: map<string, int>, a: seq<string>, id: string)
    requires Covers(ages, a) && Descending(ages, a) && id in a
    ensures a[0] in ages && ages[a[0]] >= ages[id]
  {
    var i :| 0 <= i < |a| && a[i] == id;
    assert a[0] in a;
  }

  lemma TailHas(a: seq<string>)
    requires a != [] && Distinct(a)
    ensures Distinct(a[1..]) && forall x :: x in a[1..] <==> x in a && x != a[0]
  {
    forall x | x in a && x != a[0] ensures x in a[1..] {
      var i :| 0 <= i < |a| && a[i] == x;
      assert a[1..][i - 1] == x;
    }
  }

  /** The same keys without ties can be sorted in one way only. */
  lemma {:induction false} OneOrder(ages: map<string, int>, a: seq<string>, b: seq<string>)
    requires forall id :: id in a <==> id in b
    requires Covers(ages, a) && Covers(ages, b) && NoTies(ages, a)
    requires Distinct(a) && Descending(ages, a) && Distinct(b) && Descending(ages, b)
    ensures a == b
  {
    BothEmpty(a, b);
    if a != [] {
      BothEmpty(b, a);
      assert a[0] in a && b[0] in b;
      FirstIsGreatest(ages, a, b[0]);
      FirstIsGreatest(ages, b, a[0]);
      TailHas(a);
      TailHas(b);
      OneOrder(ages, a[1..], b[1..]);
      assert a == [a[0]] + a[1..] && b == [b[0]] + b[1..];
    }
  }

  lemma {:induction false} DistinctCount(a: seq<string>, s: set<string>)
    requires Distinct(a) && forall x :: x in a <==> x in s
    ensures |a| == |s|
  {
    if a == [] {
      assert s == {};
    } else {
      TailHas(a);
      DistinctCount(a[1..], s - {a[0]});
    }
  }

  // ----- Sorting -----

  /** Insert at k, where the neighbours fit. */
  function InsertedAt(ages: map<string, int>, sorted: seq<string>, k: nat, id: string): (r: seq<string>)
    requires k <= |sorted| && id !in sorted && id in ages && Covers(ages, sorted)
    requires Distinct(sorted) && Descending(ages, sorted)
    requires forall j :: 0 <= j < k ==> sorted[j] in ages && ages[sorted[j]] > ages[id]
    requires k < |sorted| ==> sorted[k] in ages && ages[sorted[k]] <= ages[id]
    ensures forall x :: x in r <==> x in sorted || x == id
    ensures Distinct(r) && Covers(ages, r) && Descending(ages, r)
  {
    InsertionHas(sorted, k, id);
    InsertionSorted(ages, sorted, k, id);
    sorted[..k] + [id] + sorted[k..]
  }

  lemma InsertionHas(sorted: seq<string>, k: nat, id: string)
    requires k <= |sorted| && id !in sorted && Distinct(sorted)
    ensures var r := sorted[..k] + [id] + sorted[k..];
            Distinct(r) && forall x :: x in r <==> x in sorted || x == id
  {
    assert sorted == sorted[..k] + sorted[k..];
  }

  lemma InsertionSorted(ages: map<string, int>, sorted: seq<string>, k: nat, id: string)
    requires k <= |sorted| && id in ages && Covers(ages, sorted) && Descending(ages, sorted)
    requires forall j :: 0 <= j < k ==> sorted[j] in ages && ages[sorted[j]] > ages[id]
    requires k < |sorted| ==> sorted[k] in ages && ages[sorted[k]] <= ages[id]
    ensures var r := sorted[..k] + [id] + sorted[k..];
            Covers(ages, r) && Descending(ages, r)
  {
    var r := sorted[..k] + [id] + sorted[k..];
    assert Covers(ages, r);
    forall i, j | 0 <= i < j < |r| ensures ages[r[i]] >= ages[r[j]] {
      assert r[i] in r && r[j] in r;
      assert j > k ==> r[j] == sorted[j - 1];
      assert i > k ==> r[i] == sorted[i - 1];
    }
  }

  /** Some order that sorts by age; nothing is promised for keys of the same age. */
  method Sort(ages: map<string, int>, ids: seq<string>) returns (sorted: seq<string>)
    requires Covers(ages, ids) && Distinct(ids)
    ensures forall id :: id in sorted <==> id in ids
    ensures Distinct(sorted) && Covers(ages, sorted) && Descending(ages, sorted)
  {
    sorted := [];
    for i := 0 to |ids|
      invariant forall id :: id in sorted <==> id in ids[..i]
      invariant Distinct(sorted) && Covers(ages, sorted) && Descending(ages, sorted)
    {
      assert ids[i] !in ids[..i] && ids[i] in ages;
      var k := 0;
      while k < |sorted| && ages[sorted[k]] > ages[ids[i]]
        invariant k <= |sorted| && forall j :: 0 <= j < |sorted| ==> sorted[j] in ages
        invariant forall j :: 0 <= j < k ==> ages[sorted[j]] > ages[ids[i]]
      {
        k := k + 1;
      }
      sorted := InsertedAt(ages, sorted, k, ids[i]);
      assert ids[..i + 1] == ids[..i] + [ids[i]];
    }
    assert ids[..|ids|] == ids;
  }

  /** Any finite set of keys can be sorted. */
  lemma {:induction false} SortedExists(ages: map<string, int>, ids: set<string>) returns (order: seq<string>)
    requires ids <= ages.Keys
    ensures forall id :: id in order <==> id in ids
    ensures Distinct(order) && Covers(ages, order) && Descending(ages, order)
    decreases |ids|
  {
    if ids == {} {
      order := [];
    } else {
      var id :| id in ids;
      var rest := SortedExists(ages, ids - {id});
      var k := InsertionPoint(ages, rest, id, 0);
      order := InsertedAt(ages, rest, k, id);
    }
  }

  ghost function InsertionPoint(ages: map<string, int>, sorted: seq<string>, id: string, from: nat): (k: nat)
    requires from <= |sorted| && id in ages && forall j :: 0 <= j < |sorted| ==> sorted[j] in ages
    requires forall j :: 0 <= j < from ==> ages[sorted[j]] > ages[id]
    ensures k <= |sorted| && forall j :: 0 <= j < k ==> ages[sorted[j]] > ages[id]
    ensures k < |sorted| ==> ages[sorted[k]] <= ages[id]
    decreases |sorted| - from
  {
    if from < |sorted| && ages[sorted[from]] > ages[id] then InsertionPoint(ages, sorted, id, from + 1) else from
  }
}
