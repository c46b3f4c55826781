/** Listing the attempts of a task after its retry loop, GetAttemptsByTask. Both stores promise the order of the
    attempt numbers. The one of internal/storage/memory.go sorts and keeps the promise; the one of
    internal/publish/storage.go, over which the retry loop runs, does not sort. */
module AttemptListing {
  import opened PublishStores
  import opened Retry
  import opened Sorting
  import PT = PublishTables

  /** Sorting by attempt number, lowest first. */
  function ByNumber(t: PT.AttemptTable): map<string, int> {
    map id | id in t :: -t[id].number
  }

  /** What a listing of the sorting store may be: each attempt of the task once, lowest number first. */
  ghost predicate IsAttemptListing(t: PT.AttemptTable, taskID: string, order: seq<string>) {
    PT.ListsAttempts(t, taskID, order) && Covers(ByNumber(t), order) && Descending(ByNumber(t), order)
  }

  /** The attempt store of internal/storage/memory.go, as far as it lists. */
  class SortingAttemptStore {
    var attempts: PT.AttemptTable

    constructor ()
      ensures attempts == map[]
    {
      attempts := map[];
    }

    /** Filter in any order, then sort by attempt number. */
    method GetAttemptsByTask(taskID: string) returns (result: seq<PT.Attempt>)
      ensures exists order :: IsAttemptListing(attempts, taskID, order) && result == PT.AttemptsAt(attempts, order)
    {
      var filtered := FilterAttempts(attempts, taskID);
      var order := Sort(ByNumber(attempts), filtered);
      assert IsAttemptListing(attempts, taskID, order);
      result := PT.AttemptsAt(attempts, order);
    }
  }

  function Draws(ids: nat -> string, first: nat, n: nat): (order: seq<string>)
    ensures |order| == n && forall j :: 0 <= j < n ==> order[j] == Drawn(ids, first, j)
  {
    seq(n, j requires 0 <= j < n => Drawn(ids, first, j))
  }

  predicate Numbered(t: PT.AttemptTable, taskID: string, ids: nat -> string, first: nat, j: nat) {
    Drawn(ids, first, j) in t && t[Drawn(ids, first, j)].taskID == taskID && t[Drawn(ids, first, j)].number == j + 1
  }

  lemma AddedAreNumbered(t: PT.AttemptTable, t': PT.AttemptTable, taskID: string, ids: nat -> string, first: nat,
                         script: Script, from: Talk, n: nat)
    requires forall i: nat, j: nat :: ids(i) == ids(j) ==> i == j
    requires forall i: nat :: i >= first ==> ids(i) !in t
    requires forall id :: id in t ==> t[id].taskID != taskID
    requires t' == RecordsAfter(t, taskID, ids, first, script, from, n)
    ensures forall j: nat :: j < n ==> Numbered(t', taskID, ids, first, j)
    ensures forall id :: id in t' && t'[id].taskID == taskID ==> exists j: nat :: j < n && id == Drawn(ids, first, j)
  {
    RecordsExactly(t, taskID, ids, first, script, from, n);
    hide RecordsAfter, EndOf, Drawn;
    forall j: nat | j < n ensures Numbered(t', taskID, ids, first, j) {
      assert t'[Drawn(ids, first, j)] == Record(Drawn(ids, first, j), taskID, EndOf(script, from, j), j);
    }
  }

  /** In a store that sorts, for a task that had no attempts before its retry loop, the listing afterwards is exactly
      the ledger: the n attempts in the order they were made, numbered 1 to n. */
  lemma {:induction false} ListingIsTheLedger(t: PT.AttemptTable, taskID: string, ids: nat -> string, first: nat,
                                              script: Script, from: Talk, n: nat, order: seq<string>)
    requires forall i: nat, j: nat :: ids(i) == ids(j) ==> i == j
    requires forall i: nat :: i >= first ==> ids(i) !in t
    requires forall id :: id in t ==> t[id].taskID != taskID
    requires IsAttemptListing(RecordsAfter(t, taskID, ids, first, script, from, n), taskID, order)
    ensures order == Draws(ids, first, n)
    ensures forall j :: 0 <= j < n ==>
              order[j] in RecordsAfter(t, taskID, ids, first, script, from, n)
              && RecordsAfter(t, taskID, ids, first, script, from, n)[order[j]].number == j + 1
  {
    var t' := RecordsAfter(t, taskID, ids, first, script, from, n);
    AddedAreNumbered(t, t', taskID, ids, first, script, from, n);
    assert forall i: nat, j: nat :: Drawn(ids, first, i) == Drawn(ids, first, j) ==> i == j;
    hide RecordsAfter, EndOf, Drawn, IsAttemptListing;
    DrawsAreListing(t', taskID, ids, first, n);
    ListingsAgree(t', taskID, order, Draws(ids, first, n));
    assert forall j :: 0 <= j < n ==> Numbered(t', taskID, ids, first, j) && order[j] == Drawn(ids, first, j);
  }

  predicate NumbersDiffer(t: PT.AttemptTable, order: seq<string>) {
    && (forall id :: id in order ==> id in t)
    && (forall x, y :: x in order && y in order && t[x].number == t[y].number ==> x == y)
  }

  lemma DrawsAreListing(t: PT.AttemptTable, taskID: string, ids: nat -> string, first: nat, n: nat)
    requires forall i: nat, j: nat :: Drawn(ids, first, i) == Drawn(ids, first, j) ==> i == j
    requires forall j: nat :: j < n ==> Numbered(t, taskID, ids, first, j)
    requires forall id :: id in t && t[id].taskID == taskID ==> exists j: nat :: j < n && id == Drawn(ids, first, j)
    ensures IsAttemptListing(t, taskID, Draws(ids, first, n)) && NumbersDiffer(t, Draws(ids, first, n))
  {
    hide Drawn;
    var order := Draws(ids, first, n);
    forall j | 0 <= j < n ensures order[j] in t && t[order[j]].taskID == taskID && t[order[j]].number == j + 1 {
      assert Numbered(t, taskID, ids, first, j);
    }
    forall id ensures id in order <==> id in t && t[id].taskID == taskID {
      if id in t && t[id].taskID == taskID {
        var j: nat :| j < n && id == Drawn(ids, first, j);
        assert order[j] == id;
      }
    }
  }

  lemma ListingsAgree(t: PT.AttemptTable, taskID: string, a: seq<string>, b: seq<string>)
    requires IsAttemptListing(t, taskID, a) && IsAttemptListing(t, taskID, b) && NumbersDiffer(t, b)
    ensures a == b
  {
    OneOrder(ByNumber(t), a, b);
  }

  // ----- Without sorting -----

  /** The order in which the attempts were made, with the first two exchanged. */
  function FirstTwoSwapped(order: seq<string>): seq<string>
    requires |order| >= 2
  {
    [order[1], order[0]] + order[2..]
  }

  lemma SwappedLists(t: PT.AttemptTable, taskID: string, order: seq<string>)
    requires PT.ListsAttempts(t, taskID, order) && |order| >= 2
    ensures PT.ListsAttempts(t, taskID, FirstTwoSwapped(order)) && FirstTwoSwapped(order) != order
  {
    var swapped := FirstTwoSwapped(order);
    assert order == [order[0], order[1]] + order[2..];
    assert order[0] != order[1] && swapped[0] == order[1];
  }

  lemma ShortListsAgree(t: PT.AttemptTable, taskID: string, a: seq<string>, b: seq<string>)
    requires PT.ListsAttempts(t, taskID, a) && PT.ListsAttempts(t, taskID, b) && |b| <= 1
    ensures a == b
  {
    var s := set id | id in t && t[id].taskID == taskID;
    DistinctCount(a, s);
    DistinctCount(b, s);
    if |b| == 1 { assert b[0] in a; }
  }

  lemma DrawsDiffer(ids: nat -> string, first: nat)
    requires forall i: nat, j: nat :: ids(i) == ids(j) ==> i == j
    ensures forall i: nat, j: nat :: Drawn(ids, first, i) == Drawn(ids, first, j) ==> i == j
  {
  }

  /** The store the retry loop runs over lists each of the n attempts once, in any order: the listing is bound to
      be in the order of the attempt numbers if and only if there is at most one attempt. */
  lemma {:induction false} UnsortedListingExactly(t: PT.AttemptTable, taskID: string, ids: nat -> string, first: nat,
                                                  script: Script, from: Talk, n: nat)
    requires forall i: nat, j: nat :: ids(i) == ids(j) ==> i == j
    requires forall i: nat :: i >= first ==> ids(i) !in t
    requires forall id :: id in t ==> t[id].taskID != taskID
    ensures var t' := RecordsAfter(t, taskID, ids, first, script, from, n);
            && PT.ListsAttempts(t', taskID, Draws(ids, first, n))
            && (forall order :: PT.ListsAttempts(t', taskID, order) ==>
                  |order| == n && forall j: nat :: j < n ==> Drawn(ids, first, j) in order)
            && ((forall order :: PT.ListsAttempts(t', taskID, order) ==> order == Draws(ids, first, n)) <==> n <= 1)
  {
    hide EndOf, Drawn, Numbered, PT.ListsAttempts, RecordsAfter;
    var t' := RecordsAfter(t, taskID, ids, first, script, from, n);
    AddedAreNumbered(t, t', taskID, ids, first, script, from, n);
    DrawsDiffer(ids, first);
    AnyOrder(t', taskID, ids, first, n);
  }

  lemma AnyOrder(t: PT.AttemptTable, taskID: string, ids: nat -> string, first: nat, n: nat)
    requires forall i: nat, j: nat :: Drawn(ids, first, i) == Drawn(ids, first, j) ==> i == j
    requires forall j: nat :: j < n ==> Numbered(t, taskID, ids, first, j)
    requires forall id :: id in t && t[id].taskID == taskID ==> exists j: nat :: j < n && id == Drawn(ids, first, j)
    ensures PT.ListsAttempts(t, taskID, Draws(ids, first, n))
    ensures forall order :: PT.ListsAttempts(t, taskID, order) ==>
              |order| == n && forall j: nat :: j < n ==> Drawn(ids, first, j) in order
    ensures (forall order :: PT.ListsAttempts(t, taskID, order) ==> order == Draws(ids, first, n)) <==> n <= 1
  {
    DrawsAreListing(t, taskID, ids, first, n);
    var draws := Draws(ids, first, n);
    assert PT.ListsAttempts(t, taskID, draws);
    hide Drawn, Numbered;
    forall order | PT.ListsAttempts(t, taskID, order)
      ensures |order| == n && (forall j: nat :: j < n ==> Drawn(ids, first, j) in order) && (n <= 1 ==> order == draws)
    {
      SameSize(t, taskID, order, draws);
      forall j: nat | j < n ensures Drawn(ids, first, j) in order { assert draws[j] in draws; }
      if n <= 1 { ShortListsAgree(t, taskID, order, draws); }
    }
    if n >= 2 { SwappedLists(t, taskID, draws); }
  }

  lemma SameSize(t: PT.AttemptTable, taskID: string, a: seq<string>, b: seq<string>)
    requires PT.ListsAttempts(t, taskID, a) && PT.ListsAttempts(t, taskID, b)
    ensures |a| == |b|
  {
    var s := set id | id in t && t[id].taskID == taskID;
    DistinctCount(a, s);
    DistinctCount(b, s);
  }
}
