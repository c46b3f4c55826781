/** The content store of internal/storage/memory.go: updates under a version check, and listings in pages. */
module StorageContent {
  import opened Contracts
  import opened PublishStores
  import opened Sorting

  /** createdAt is a point in time; updates do not change it. */
  datatype Item = Item(id: string, title: string, body: string, tags: seq<string>, status: ContentStatus,
                       createdAt: int)
  datatype Record = Record(item: Item, version: int)
  type Table = map<string, Record>

  // ----- Versions -----

  function CompareAndSetError(t: Table, id: string, version: int): Option<StoreError> {
    if id !in t then Some(NotFound)
    else if t[id].version != version then Some(VersionConflict)
    else None
  }

  /** No transition check here. */
  function CompareAndSet(t: Table, id: string, status: ContentStatus, version: int): Table {
    if CompareAndSetError(t, id, version) != None then t
    else t[id := Record(t[id].item.(status := status), t[id].version + 1)]
  }

  /** A write with the version of a snapshot: its two refusals, what an accepted one changes, and that a second one with
      the same version is refused. */
  lemma SnapshotWrites(t: Table, id: string, status: ContentStatus, version: int, again: ContentStatus)
    ensures var refused, t' := CompareAndSetError(t, id, version), CompareAndSet(t, id, status, version);
            if id !in t then refused == Some(NotFound) && t' == t
            else if version != t[id].version then refused == Some(VersionConflict) && t' == t
            else
              var item := t[id].item;
              && refused == None && CompareAndSetError(t', id, version) == Some(VersionConflict)
              && t' == t[id := Record(Item(item.id, item.title, item.body, item.tags, status, item.createdAt),
                                      version + 1)]
  {
  }

  // ----- Pages -----

  datatype Pagination = Pagination(limit: int, offset: int)
  datatype PageResult = PageResult(total: nat, limit: int, offset: int)

  predicate Normal(p: Pagination) {
    1 <= p.limit <= 100 && p.offset >= 0
  }

  /** The default is 20 and the cap is 100; a page that needs no change gets none. */
  function Normalize(p: Pagination): (r: Pagination)
    ensures Normal(r)
    ensures Normal(p) <==> r == p
    ensures p.limit > 100 ==> r.limit == 100
    ensures 1 <= p.limit <= 100 ==> r.limit == p.limit
    ensures p.limit <= 0 ==> r.limit == 20
    ensures p.offset >= 0 ==> r.offset == p.offset
    ensures p.offset < 0 ==> r.offset == 0
  {
    var defaulted := if p.limit <= 0 then 20 else p.limit;
    Pagination(if defaulted > 100 then 100 else defaulted, if p.offset < 0 then 0 else p.offset)
  }

  function Matching(t: Table, status: ContentStatus): set<string> {
    set id | id in t && t[id].item.status == status
  }

  function Ages(t: Table): map<string, int> {
    map id | id in t :: t[id].item.createdAt
  }

  predicate NewestFirst(t: Table, ids: seq<string>) {
    Covers(Ages(t), ids) && Descending(Ages(t), ids)
  }

  /** An order in which the contents of a status can be listed: each of them once, newest first. The iteration
      over the map and the sort leave open how contents of the same age follow each other. */
  ghost predicate IsListing(t: Table, status: ContentStatus, order: seq<string>) {
    && (forall id :: id in order <==> id in Matching(t, status))
    && Distinct(order)
    && NewestFirst(t, order)
  }

  function PageStart(total: nat, p: Pagination): (start: nat)
    requires Normal(p)
    ensures start <= total
  {
    if p.offset > total then total else p.offset
  }

  function PageEnd(total: nat, p: Pagination): (end: nat)
    requires Normal(p)
    ensures PageStart(total, p) <= end <= total && end - PageStart(total, p) <= p.limit
  {
    var end := PageStart(total, p) + p.limit;
    if end > total then total else end
  }

  function PageOf(order: seq<string>, p: Pagination): (page: seq<string>)
    requires Normal(p)
    ensures forall id :: id in page ==> id in order
  {
    order[PageStart(|order|, p)..PageEnd(|order|, p)]
  }

  function ItemsOf(t: Table, ids: seq<string>): (items: seq<Item>)
    requires forall id :: id in ids ==> id in t
    ensures |items| == |ids| && forall i :: 0 <= i < |ids| ==> items[i] == t[ids[i]].item
  {
    seq(|ids|, i requires 0 <= i < |ids| => t[ids[i]].item)
  }

  /** A page holds contents of the status, newest first, and as many as there are from its offset on, within its
      limit. */
  lemma PageShows(t: Table, status: ContentStatus, order: seq<string>, p: Pagination)
    requires IsListing(t, status, order) && Normal(p)
    ensures forall id :: id in PageOf(order, p) ==> id in t
    ensures var total, items := |Matching(t, status)|, ItemsOf(t, PageOf(order, p));
            && |order| == total
            && |items| == (if p.offset >= total then 0
                           else if p.offset + p.limit >= total then total - p.offset
                           else p.limit)
            && (forall i :: 0 <= i < |items| ==> items[i].status == status)
            && (forall i, j :: 0 <= i < j < |items| ==> items[i].createdAt >= items[j].createdAt)
  {
    DistinctCount(order, Matching(t, status));
    var start, page := PageStart(|order|, p), PageOf(order, p);
    forall id | id in page ensures id in t && t[id].item.status == status { assert id in order; }
    forall i, j | 0 <= i < j < |page| ensures Ages(t)[page[i]] >= Ages(t)[page[j]] {
      assert page[i] == order[start + i] && page[j] == order[start + j];
    }
    forall i | 0 <= i < |page| ensures page[i] in t && t[page[i]].item.status == status { assert page[i] in page; }
    hide PageOf;
  }

  // ----- The store -----

  class VersionedContentStore {
    var content: Table

    constructor ()
      ensures content == map[]
    {
      content := map[];
    }

    method CreateContent(title: string, body: string, tags: seq<string>, ids: IDSource, clock: Clock)
      returns (item: Item)
      modifies this, ids, clock
      ensures ids.next == old(ids.next) + 1 && clock.next == old(clock.next) + 1
      ensures item == Item(ids.stream(old(ids.next)), title, body, tags, Draft, clock.readings(old(clock.next)))
      ensures content == old(content)[item.id := Record(item, 1)]
    {
      var now := clock.Now();
      var id := ids.Generate();
      item := Item(id, title, body, tags, Draft, now);
      content := content[id := Record(item, 1)];
    }

    method UpdateContent(id: string, status: ContentStatus, version: int) returns (error: Option<StoreError>)
      modifies this
      ensures error == CompareAndSetError(old(content), id, version)
      ensures content == CompareAndSet(old(content), id, status, version)
    {
      if id !in content {
        return Some(NotFound);
      }
      var rec := content[id];
      if rec.version != version {
        return Some(VersionConflict);
      }
      content := content[id := Record(rec.item.(status := status), rec.version + 1)];
      return None;
    }

    /** Visit all contents in any order and keep those with the status. */
    method Filter(status: ContentStatus) returns (filtered: seq<string>)
      ensures forall id :: id in filtered <==> id in Matching(content, status)
      ensures Distinct(filtered)
    {
      filtered := [];
      var toVisit := content.Keys;
      while toVisit != {}
        invariant toVisit <= content.Keys
        invariant forall id :: id in filtered <==> id in Matching(content, status) && id !in toVisit
        invariant Distinct(filtered)
        decreases |toVisit|
      {
        var id :| id in toVisit;
        toVisit := toVisit - {id};
        if content[id].item.status == status {
          filtered := filtered + [id];
        }
      }
    }

    /** The page of some listing; the bounds of the slice are always in range. */
    method ListContent(status: ContentStatus, page: Pagination) returns (result: seq<Item>, info: PageResult)
      ensures exists order ::
                IsListing(content, status, order) && result == ItemsOf(content, PageOf(order, Normalize(page)))
      ensures info == PageResult(|Matching(content, status)|, Normalize(page).limit, Normalize(page).offset)
      ensures |result| == if info.offset >= info.total then 0
                          else if info.offset + info.limit >= info.total then info.total - info.offset
                          else info.limit
      ensures forall i :: 0 <= i < |result| ==> result[i].status == status
      ensures forall i, j :: 0 <= i < j < |result| ==> result[i].createdAt >= result[j].createdAt
    {
      var p := Normalize(page);
      var filtered := Filter(status);
      var sorted := Sort(Ages(content), filtered);
      assert forall id :: id in sorted ==> id in content;
      var total := |sorted|;
      var start := p.offset;
      if start > total {
        start := total;
      }
      var end := start + p.limit;
      if end > total {
        end := total;
      }
      result := ItemsOf(content, sorted[start..end]);
      info := PageResult(total, p.limit, p.offset);
      assert IsListing(content, status, sorted) && sorted[start..end] == PageOf(sorted, p);
      PageShows(content, status, sorted, p);
      hide IsListing, PageOf, Ages, Matching;
    }
  }
}
