/** Turning the pages of StorageContent.VersionedContentStore.ListContent: when a reader who goes through them sees
    every content once, newest first, whatever order each call happened to sort into. */
module Paging {
  import opened Contracts
  import opened Sorting
  import opened StorageContent

  /** No two contents of the status have the same age. */
  ghost predicate DistinctTimes(t: Table, status: ContentStatus) {
    forall a, b ::
      a in Matching(t, status) && b in Matching(t, status) && t[a].item.createdAt == t[b].item.createdAt ==> a == b
  }

  function Min(a: nat, b: nat): nat {
    if a < b then a else b
  }

  /** The k-th page of size L, counted from 0. */
  function PageNumber(k: nat, L: nat): Pagination {
    Pagination(L, k * L)
  }

  /** What a reader has seen after as many pages as there are listings; call k sorted into orders[k]. */
  function Read(orders: seq<seq<string>>, L: nat): seq<string>
    requires 1 <= L <= 100
  {
    if orders == [] then []
    else
      var k := |orders| - 1;
      Read(orders[..k], L) + PageOf(orders[k], PageNumber(k, L))
  }

  lemma OnePage(order: seq<string>, k: nat, L: nat)
    requires 1 <= L <= 100
    ensures k * L <= (k + 1) * L
    ensures PageOf(order, PageNumber(k, L)) == order[Min(k * L, |order|)..Min((k + 1) * L, |order|)]
  {
    assert (k + 1) * L == k * L + L;
  }

  /** Going through the pages of one listing gives the listing, as far as it has been turned. */
  lemma {:induction false} SameOrderReads(orders: seq<seq<string>>, order: seq<string>, L: nat)
    requires 1 <= L <= 100 && forall k :: 0 <= k < |orders| ==> orders[k] == order
    ensures Read(orders, L) == order[..Min(|orders| * L, |order|)]
  {
    if orders == [] {
      assert |orders| * L == 0;
    } else {
      var k := |orders| - 1;
      SameOrderReads(orders[..k], order, L);
      OnePage(order, k, L);
      var a, b := Min(k * L, |order|), Min((k + 1) * L, |order|);
      assert order[..a] + order[a..b] == order[..b];
    }
  }

  /** If no two contents of the status have the same age, a reader who turns enough pages of any normal size
      sees exactly the one listing, however each call iterated and sorted. */
  lemma {:induction false} PagesMakeTheListing(t: Table, status: ContentStatus, orders: seq<seq<string>>,
                                               order: seq<string>, L: nat)
    requires 1 <= L <= 100 && DistinctTimes(t, status) && IsListing(t, status, order)
    requires forall k :: 0 <= k < |orders| ==> IsListing(t, status, orders[k])
    requires |orders| * L >= |order|
    ensures Read(orders, L) == order
  {
    forall k | 0 <= k < |orders| ensures orders[k] == order {
      assert IsListing(t, status, orders[k]);
      OneOrder(Ages(t), orders[k], order);
    }
    SameOrderReads(orders, order, L);
  }

  // ----- Contents of the same age -----

  /** However the calls sort, a reader who turns all pages of any normal size sees every content of the status
      exactly once. */
  ghost predicate PagesReliable(t: Table, status: ContentStatus) {
    forall orders, L :: EnoughPages(t, status, orders, L) ==> SeesEachOnce(t, status, orders, L)
  }

  ghost predicate EnoughPages(t: Table, status: ContentStatus, orders: seq<seq<string>>, L: nat) {
    && 1 <= L <= 100 && |orders| * L >= |Matching(t, status)|
    && forall k :: 0 <= k < |orders| ==> IsListing(t, status, orders[k])
  }

  ghost predicate SeesEachOnce(t: Table, status: ContentStatus, orders: seq<seq<string>>, L: nat)
    requires 1 <= L <= 100
  {
    var read := Read(orders, L);
    Distinct(read) && forall id :: id in read <==> id in Matching(t, status)
  }

  /** The i-th content and the one after it have the same age. */
  predicate TiedAt(t: Table, order: seq<string>, i: nat) {
    && i + 1 < |order| && order[i] in t && order[i + 1] in t
    && t[order[i]].item.createdAt == t[order[i + 1]].item.createdAt
  }

  function Swapped(order: seq<string>, i: nat): seq<string>
    requires i + 1 < |order|
  {
    order[i := order[i + 1]][i + 1 := order[i]]
  }

  /** The same listing with two neighbours of the same age exchanged. */
  lemma NeighboursSwap(t: Table, status: ContentStatus, order: seq<string>, i: nat)
    requires IsListing(t, status, order) && TiedAt(t, order, i)
    ensures IsListing(t, status, Swapped(order, i))
  {
    var swapped := Swapped(order, i);
    forall id ensures id in swapped <==> id in order {
      if id in order {
        var j :| 0 <= j < |order| && order[j] == id;
        assert swapped[if j == i then i + 1 else if j == i + 1 then i else j] == id;
      }
    }
  }

  /** With one content per page, page k shows what its own order has at place k. */
  lemma {:induction false} SinglePages(orders: seq<seq<string>>, n: nat)
    requires |orders| <= n && forall k :: 0 <= k < |orders| ==> |orders[k]| == n
    ensures |Read(orders, 1)| == |orders| && forall k :: 0 <= k < |orders| ==> Read(orders, 1)[k] == orders[k][k]
  {
    if orders != [] {
      var k := |orders| - 1;
      SinglePages(orders[..k], n);
      OnePage(orders[k], k, 1);
      assert k * 1 == k && (k + 1) * 1 == k + 1;
      assert PageOf(orders[k], PageNumber(k, 1)) == orders[k][k..k + 1] == [orders[k][k]];
      assert Read(orders, 1) == Read(orders[..k], 1) + [orders[k][k]];
      hide Read, PageOf;
    }
  }

  lemma TiesAreNeighbours(t: Table, status: ContentStatus, order: seq<string>) returns (i: nat)
    requires IsListing(t, status, order) && !DistinctTimes(t, status)
    ensures TiedAt(t, order, i)
  {
    var a, b :| a in Matching(t, status) && b in Matching(t, status) && t[a].item.createdAt == t[b].item.createdAt &&
        a != b;
    assert a in order && b in order && NewestFirst(t, order);
    hide DistinctTimes, Matching, IsListing;
    i := TieBetween(t, order, a, b);
  }

  lemma TieBetween(t: Table, order: seq<string>, a: string, b: string) returns (i: nat)
    requires NewestFirst(t, order) && a in order && b in order && a != b
    requires a in t && b in t && t[a].item.createdAt == t[b].item.createdAt
    ensures TiedAt(t, order, i)
  {
    var p :| 0 <= p < |order| && order[p] == a;
    var q :| 0 <= q < |order| && order[q] == b;
    i := Min(p, q);
    var last := p + q - i;
    assert order[i] in order && order[i + 1] in order && order[last] in order;
    assert Ages(t)[order[i]] >= Ages(t)[order[i + 1]];
    assert i + 1 == last || Ages(t)[order[i + 1]] >= Ages(t)[order[last]];
  }

  /** All calls sort into the same order except call i + 1, which exchanges the neighbours i and i + 1. */
  function OneSwap(order: seq<string>, i: nat): seq<seq<string>>
    requires i + 1 < |order|
  {
    seq(|order|, k requires 0 <= k < |order| => if k == i + 1 then Swapped(order, i) else order)
  }

  lemma OneSwapRepeats(order: seq<string>, i: nat)
    requires i + 1 < |order|
    ensures !Distinct(Read(OneSwap(order, i), 1))
  {
    var orders := OneSwap(order, i);
    assert forall k :: 0 <= k < |orders| ==> orders[k] == (if k == i + 1 then Swapped(order, i) else order);
    assert |Swapped(order, i)| == |order| && Swapped(order, i)[i + 1] == order[i];
    SinglePages(orders, |order|);
    assert Read(orders, 1)[i] == orders[i][i] && Read(orders, 1)[i + 1] == orders[i + 1][i + 1];
    assert Read(orders, 1)[i] == order[i] == Read(orders, 1)[i + 1];
  }

  /** Two neighbours of the same age can change places between two calls: then one is seen twice. */
  lemma TieRepeats(t: Table, status: ContentStatus)
    requires !DistinctTimes(t, status)
    ensures !PagesReliable(t, status)
  {
    var order := SortedExists(Ages(t), Matching(t, status));
    var i := TiesAreNeighbours(t, status, order);
    NeighboursSwap(t, status, order, i);
    DistinctCount(order, Matching(t, status));
    hide Read, Matching, DistinctTimes, NewestFirst, Distinct;
    OneSwapRepeats(order, i);
    assert IsListing(t, status, order);
    hide IsListing, Swapped;
    assert EnoughPages(t, status, OneSwap(order, i), 1);
    assert !SeesEachOnce(t, status, OneSwap(order, i), 1);
  }

  /** Exactly: the pages are reliable if and only if no two contents of the status have the same age. */
  lemma {:induction false} PagesReliableExactly(t: Table, status: ContentStatus)
    ensures PagesReliable(t, status) <==> DistinctTimes(t, status)
  {
    if DistinctTimes(t, status) {
      var order := SortedExists(Ages(t), Matching(t, status));
      DistinctCount(order, Matching(t, status));
      forall orders, L | EnoughPages(t, status, orders, L) ensures SeesEachOnce(t, status, orders, L) {
        PagesMakeTheListing(t, status, orders, order, L);
      }
    } else {
      TieRepeats(t, status);
    }
  }
}
