/** The creation of a publish batch, POST /publish of internal/api/handlers.go, over the stores of
    internal/storage/memory.go. */
module Api {
  import opened Contracts
  import opened PublishStores
  import opened Sorting
  import opened StorageContent
  import opened TaskIndex
  import opened Policy
  import PT = PublishTables

  /** A decoded request. */
  datatype Request = Request(title: string, body: string, tags: seq<string>, platforms: seq<string>)

  // ----- Validation -----

  /** White space, as the trimming of the Go library has it. */
  predicate IsSpace(c: char) {
    var n := c as int;
    || 9 <= n <= 13 || n == 32 || n == 0x85 || n == 0xA0 || n == 0x1680 || 0x2000 <= n <= 0x200A
    || n == 0x2028 || n == 0x2029 || n == 0x202F || n == 0x205F || n == 0x3000
  }

  predicate AllSpace(s: string, from: nat, to: nat)
    requires from <= to <= |s|
  {
    forall k :: from <= k < to ==> IsSpace(s[k])
  }

  /** The first place from i on without white space. */
  function SkipSpace(s: string, i: nat): (start: nat)
    requires i <= |s|
    ensures i <= start <= |s| && AllSpace(s, i, start) && (start < |s| ==> !IsSpace(s[start]))
    decreases |s| - i
  {
    if i < |s| && IsSpace(s[i]) then SkipSpace(s, i + 1) else i
  }

  /** The place behind the last one between i and j without white space. */
  function SkipSpaceBack(s: string, i: nat, j: nat): (end: nat)
    requires i <= j <= |s|
    ensures i <= end <= j && AllSpace(s, end, j) && (i < end ==> !IsSpace(s[end - 1]))
  {
    if i < j && IsSpace(s[j - 1]) then SkipSpaceBack(s, i, j - 1) else j
  }

  function TrimSpace(s: string): string {
    var start := SkipSpace(s, 0);
    s[start..SkipSpaceBack(s, start, |s|)]
  }

  /** Trimming takes white space off both ends, all of it, and nothing else. */
  lemma {:induction false} TrimSpaceMeans(s: string, i: nat, j: nat)
    requires i <= j <= |s| && AllSpace(s, 0, i) && AllSpace(s, j, |s|)
    requires i < j ==> !IsSpace(s[i]) && !IsSpace(s[j - 1])
    ensures TrimSpace(s) == s[i..j]
  {
    hide IsSpace;
    var start := SkipSpace(s, 0);
    var end := SkipSpaceBack(s, start, |s|);
    if i < j {
      assert start == i && end == j;
    } else {
      assert start == end;
    }
  }

  /** Bytes of a character in UTF-8. */
  function CharBytes(c: char): (n: nat)
    ensures 1 <= n <= 4
  {
    var n := c as int;
    if n < 0x80 then 1 else if n < 0x800 then 2 else if n < 0x1_0000 then 3 else 4
  }

  /** The length of a string is counted in bytes. */
  function ByteLength(s: string): (n: nat)
    ensures |s| <= n <= 4 * |s|
  {
    if s == [] then 0 else CharBytes(s[0]) + ByteLength(s[1..])
  }

  /** The white space that Unicode knows, code point by code point. */
  lemma SpacesAre(c: char)
    ensures IsSpace(c) <==>
              c as int in [0x09, 0x0A, 0x0B, 0x0C, 0x0D, 0x20, 0x85, 0xA0, 0x1680, 0x2000, 0x2001, 0x2002, 0x2003,
                           0x2004, 0x2005, 0x2006, 0x2007, 0x2008, 0x2009, 0x200A, 0x2028, 0x2029, 0x202F, 0x205F,
                           0x3000]
  {
  }

  /** UTF-8 (section 3 of RFC 3629): one, two and three bytes hold characters below 2^7, 2^11 and 2^16. */
  lemma BytesHold(c: char)
    ensures CharBytes(c) <= 1 <==> c as int < 128
    ensures CharBytes(c) <= 2 <==> c as int < 2048
    ensures CharBytes(c) <= 3 <==> c as int < 65536
  {
  }

  /** The lengths of parts add up, and a character alone has its own. */
  lemma {:induction false} ByteLengthAdds(a: string, b: string, c: char)
    ensures ByteLength(a + b) == ByteLength(a) + ByteLength(b)
    ensures ByteLength([c]) == CharBytes(c)
  {
    assert [c][1..] == "";
    if a == "" {
      assert a + b == b;
    } else {
      ByteLengthAdds(a[1..], b, c);
      assert (a + b)[1..] == a[1..] + b;
    }
  }

  datatype Detail = TitleRequired | TitleTooLong | BodyRequired | PlatformRequired

  function Trimmed(req: Request): Request {
    req.(title := TrimSpace(req.title), body := TrimSpace(req.body))
  }

  /** Everything wrong with a trimmed request, in the order of its fields. */
  function Details(req: Request): seq<Detail> {
    (if req.title == "" then [TitleRequired] else if ByteLength(req.title) > 200 then [TitleTooLong] else [])
    + (if req.body == "" then [BodyRequired] else [])
    + (if |req.platforms| == 0 then [PlatformRequired] else [])
  }

  datatype BatchTask = BatchTask(taskID: string, platform: string, status: PublishTaskStatus)

  datatype Response =
    | Accepted(contentID: string, tasks: seq<BatchTask>)
    | Invalid(details: seq<Detail>)
    | NotPrepared                       // a content update was refused
    | NoTasks                           // no task could be created

  /** One call of the enqueuer. */
  datatype Enqueued = Enqueued(taskID: string, contentID: string, platform: string, maxRetry: int)

  /** An enqueuer that may accept or refuse each call. */
  class Enqueuer {
    const accepts: nat -> bool
    var calls: seq<Enqueued>

    constructor (accepts: nat -> bool)
      ensures this.accepts == accepts && calls == []
    {
      this.accepts := accepts;
      calls := [];
    }

    method EnqueuePublish(taskID: string, contentID: string, platform: string, maxRetry: int) returns (ok: bool)
      modifies this
      ensures calls == old(calls) + [Enqueued(taskID, contentID, platform, maxRetry)]
      ensures ok == accepts(|old(calls)|)
    {
      ok := accepts(|calls|);
      calls := calls + [Enqueued(taskID, contentID, platform, maxRetry)];
    }
  }

  // ----- First occurrences -----

  /** The platforms without repetitions, each at its first place. */
  function Firsts(platforms: seq<string>): seq<string> {
    if platforms == [] then []
    else
      var k := |platforms| - 1;
      var before := Firsts(platforms[..k]);
      if platforms[k] in before then before else before + [platforms[k]]
  }

  /** The first place of a platform in a list. */
  function FirstIndex(platforms: seq<string>, p: string): (i: nat)
    requires p in platforms
    ensures i < |platforms| && platforms[i] == p && p !in platforms[..i]
  {
    if platforms[0] == p then 0 else
      assert p in platforms[1..];
      assert platforms[..1 + FirstIndex(platforms[1..], p)] ==
             [platforms[0]] + platforms[1..][..FirstIndex(platforms[1..], p)];
      1 + FirstIndex(platforms[1..], p)
  }

  lemma InFront(platforms: seq<string>, p: string, i: int, j: int)
    ensures 0 <= i < j <= |platforms| && platforms[i] == p ==> p in platforms[..j]
  {
    if 0 <= i < j <= |platforms| { assert platforms[..j][i] == platforms[i]; }
  }

  lemma SameFirstIndex(platforms: seq<string>, k: nat, p: string)
    requires k <= |platforms| && p in platforms[..k]
    ensures p in platforms && FirstIndex(platforms, p) == FirstIndex(platforms[..k], p)
  {
    var i, j := FirstIndex(platforms, p), FirstIndex(platforms[..k], p);
    assert platforms[..k][..j] == platforms[..j] && platforms[..k][j] == platforms[j];
    InFront(platforms, p, i, j);
    InFront(platforms, p, j, i);
  }

  /** Every requested platform appears once, and they follow each other as they were first mentioned. */
  lemma {:induction false} FirstsInOrder(platforms: seq<string>)
    ensures forall p :: p in Firsts(platforms) <==> p in platforms
    ensures Distinct(Firsts(platforms))
    ensures forall i, j :: 0 <= i < j < |Firsts(platforms)| ==>
              FirstIndex(platforms, Firsts(platforms)[i]) < FirstIndex(platforms, Firsts(platforms)[j])
  {
    if platforms != [] {
      var k := |platforms| - 1;
      var before := platforms[..k];
      FirstsInOrder(before);
      assert platforms == before + [platforms[k]];
      forall p ensures p in Firsts(platforms) <==> p in platforms {
        assert p in platforms <==> p in before || p == platforms[k];
      }
      forall i, j | 0 <= i < j < |Firsts(platforms)|
        ensures FirstIndex(platforms, Firsts(platforms)[i]) < FirstIndex(platforms, Firsts(platforms)[j])
      {
        SameFirstIndex(platforms, k, Firsts(platforms)[i]);
        if j < |Firsts(before)| {
          SameFirstIndex(platforms, k, Firsts(platforms)[j]);
        } else {
          LastIsNew(platforms);
        }
      }
    }
  }

  lemma LastIsNew(platforms: seq<string>)
    requires platforms != [] && platforms[|platforms| - 1] !in platforms[..|platforms| - 1]
    ensures FirstIndex(platforms, platforms[|platforms| - 1]) == |platforms| - 1
  {
    var last := platforms[|platforms| - 1];
    InFront(platforms, last, FirstIndex(platforms, last), |platforms| - 1);
  }

  lemma FirstsStep(platforms: seq<string>, i: nat)
    requires i < |platforms|
    ensures Firsts(platforms[..i + 1])
         == (if platforms[i] in Firsts(platforms[..i]) then Firsts(platforms[..i])
             else Firsts(platforms[..i]) + [platforms[i]])
  {
    assert platforms[..i + 1][..i] == platforms[..i];
  }

  // ----- The tasks of the batch -----

  /** The task table with one new task per platform, whose ids are the draws from `first` on. */
  function TasksAdded(tasks: ScanTable, contentID: string, ids: nat -> string, first: nat,
                      platforms: seq<string>): ScanTable {
    if platforms == [] then tasks
    else
      var k := |platforms| - 1;
      TasksAdded(tasks, contentID, ids, first, platforms[..k])
      [ids(first + k) := PT.NewTask(ids(first + k), contentID, platforms[k])]
  }

  function BatchTasks(ids: nat -> string, first: nat, platforms: seq<string>): (r: seq<BatchTask>)
    ensures |r| == |platforms|
  {
    seq(|platforms|, i requires 0 <= i < |platforms| => BatchTask(ids(first + i), platforms[i], Pending))
  }

  function Calls(contentID: string, batch: seq<BatchTask>): (r: seq<Enqueued>)
    ensures |r| == |batch|
  {
    seq(|batch|, i requires 0 <= i < |batch| =>
      Enqueued(batch[i].taskID, contentID, batch[i].platform, DefaultRetryPolicy().maxRetries))
  }

  /** No draw from `first` on is known to the task store, and the content has no task there. */
  ghost predicate NewHere(tasks: ScanTable, contentID: string, ids: nat -> string, first: nat) {
    && DistinctIDs(ids) && Unused(ids, first, tasks.Keys)
    && forall id :: id in tasks ==> tasks[id].contentID != contentID
  }

  /** The new content has tasks for exactly the platforms added. */
  lemma {:induction false} AddedExist(tasks: ScanTable, contentID: string, ids: nat -> string, first: nat,
                                      platforms: seq<string>, p: string)
    requires NewHere(tasks, contentID, ids, first)
    ensures Unused(ids, first + |platforms|, TasksAdded(tasks, contentID, ids, first, platforms).Keys)
    ensures ScanExists(TasksAdded(tasks, contentID, ids, first, platforms), contentID, p) <==> p in platforms
  {
    if platforms == [] {
    } else {
      var k := |platforms| - 1;
      AddedExist(tasks, contentID, ids, first, platforms[..k], p);
      var before := TasksAdded(tasks, contentID, ids, first, platforms[..k]);
      var id := ids(first + k);
      assert id !in before;
      var after := before[id := PT.NewTask(id, contentID, platforms[k])];
      assert p in platforms <==> p in platforms[..k] || p == platforms[k];
      if ScanExists(before, contentID, p) {
        var u :| u in before && IsTaskOf(before[u], contentID, p);
        assert u in after && IsTaskOf(after[u], contentID, p);
      }
      if p == platforms[k] { assert id in after && IsTaskOf(after[id], contentID, p); }
    }
  }

  lemma BatchGrows(ids: nat -> string, first: nat, platforms: seq<string>, p: string)
    ensures BatchTasks(ids, first, platforms + [p])
         == BatchTasks(ids, first, platforms) + [BatchTask(ids(first + |platforms|), p, Pending)]
  {
  }

  lemma CallsGrow(contentID: string, batch: seq<BatchTask>, b: BatchTask)
    ensures Calls(contentID, batch + [b])
         == Calls(contentID, batch) + [Enqueued(b.taskID, contentID, b.platform, DefaultRetryPolicy().maxRetries)]
  {
  }

  /** The task at i of a batch is pending, and exactly one call enqueues its id, with three retries. */
  lemma {:induction false} EachEnqueuedOnce(contentID: string, ids: nat -> string, first: nat, platforms: seq<string>,
                                            i: nat, k: nat)
    requires DistinctIDs(ids) && i < |platforms| && k < |platforms|
    ensures var batch := BatchTasks(ids, first, platforms);
            var call := Calls(contentID, batch)[k];
            && batch[i].status == Pending && batch[i].platform == platforms[i]
            && (call.taskID == batch[i].taskID <==> k == i)
            && (k == i ==> call == Enqueued(batch[i].taskID, contentID, platforms[i], 3))
  {
    var batch := BatchTasks(ids, first, platforms);
    assert batch[i] == BatchTask(ids(first + i), platforms[i], Pending);
    assert batch[k] == BatchTask(ids(first + k), platforms[k], Pending);
    assert ids(first + i) == ids(first + k) ==> first + i == first + k;
  }

  /** The tasks of a batch are stored under their ids, pending and for their own platforms, and no others change. */
  lemma {:induction false} BatchIsStored(tasks: ScanTable, contentID: string, ids: nat -> string, first: nat,
                                         platforms: seq<string>)
    requires NewHere(tasks, contentID, ids, first)
    ensures var after, batch := TasksAdded(tasks, contentID, ids, first, platforms), BatchTasks(ids, first, platforms);
            && (forall i :: 0 <= i < |platforms| ==>
                  && batch[i].taskID in after && batch[i].taskID !in tasks
                  && after[batch[i].taskID].id == batch[i].taskID
                  && after[batch[i].taskID].contentID == contentID
                  && after[batch[i].taskID].platform == batch[i].platform == platforms[i]
                  && after[batch[i].taskID].status == batch[i].status == Pending)
            && (forall id :: id in tasks ==> id in after && after[id] == tasks[id])
  {
    if platforms != [] {
      var k := |platforms| - 1;
      BatchIsStored(tasks, contentID, ids, first, platforms[..k]);
      forall i | 0 <= i < k
        ensures BatchTasks(ids, first, platforms)[i] == BatchTasks(ids, first, platforms[..k])[i]
        ensures ids(first + k) != BatchTasks(ids, first, platforms)[i].taskID
      {
        assert ids(first + k) == ids(first + i) ==> first + k == first + i;
      }
    }
  }

  lemma TasksGrow(tasks: ScanTable, contentID: string, ids: nat -> string, first: nat, platforms: seq<string>,
                  p: string)
    ensures TasksAdded(tasks, contentID, ids, first, platforms + [p])
         == TasksAdded(tasks, contentID, ids, first, platforms)[ids(first + |platforms|) :=
              PT.NewTask(ids(first + |platforms|), contentID, p)]
  {
    assert (platforms + [p])[..|platforms|] == platforms;
  }

  /** One turn of the loop: a platform that was there before changes nothing, any other one adds its task. */
  lemma LoopTurns(stored: ScanTable, contentID: string, ids: nat -> string, first: nat, platforms: seq<string>, i: nat)
    requires NewHere(stored, contentID, ids, first) && i < |platforms|
    ensures var fs, fs', p := Firsts(platforms[..i]), Firsts(platforms[..i + 1]), platforms[i];
            var t, id := TasksAdded(stored, contentID, ids, first, fs), ids(first + |fs|);
            var task := PT.NewTask(id, contentID, p);
            if ScanExists(t, contentID, p) then fs' == fs && ScanCreate(t, contentID, p, id) == t
            else
              && |fs'| == |fs| + 1
              && ScanCreate(t, contentID, p, id) == TasksAdded(stored, contentID, ids, first, fs')
              && BatchTasks(ids, first, fs') == BatchTasks(ids, first, fs) + [BatchTask(task.id, p, task.status)]
              && Calls(contentID, BatchTasks(ids, first, fs'))
                 == Calls(contentID, BatchTasks(ids, first, fs))
                   + [Enqueued(task.id, contentID, p, task.policy.maxRetries)]
  {
    hide NewHere, ScanExists, Firsts, TasksAdded, BatchTasks, Calls;
    var fs, p := Firsts(platforms[..i]), platforms[i];
    FirstsStep(platforms, i);
    AddedExist(stored, contentID, ids, first, fs, p);
    BatchGrows(ids, first, fs, p);
    TasksGrow(stored, contentID, ids, first, fs, p);
    CallsGrow(contentID, BatchTasks(ids, first, fs), BatchTask(ids(first + |fs|), p, Pending));
  }

  // ----- The handler -----

  class PublishHandler {
    const contents: VersionedContentStore
    const tasks: ScanningTaskStore
    const enqueuer: Enqueuer
    const ids: IDSource
    const clock: Clock

    constructor (contents: VersionedContentStore, tasks: ScanningTaskStore, enqueuer: Enqueuer, ids: IDSource,
                 clock: Clock)
      ensures this.contents == contents && this.tasks == tasks && this.enqueuer == enqueuer
      ensures this.ids == ids && this.clock == clock
    {
      this.contents, this.tasks, this.enqueuer, this.ids, this.clock := contents, tasks, enqueuer, ids, clock;
    }

    /** Trim the request and collect all its faults. */
    static method ValidatePublishRequest(req: Request) returns (trimmed: Request, details: seq<Detail>)
      ensures trimmed == Trimmed(req) && details == Details(trimmed)
      ensures details == [] <==>
                trimmed.title != "" && ByteLength(trimmed.title) <= 200 && trimmed.body != "" && req.platforms != []
      ensures trimmed == Request(TrimSpace(req.title), TrimSpace(req.body), req.tags, req.platforms)
      ensures TitleRequired in details <==> trimmed.title == ""
      ensures TitleTooLong in details <==> ByteLength(trimmed.title) > 200
      ensures BodyRequired in details <==> trimmed.body == ""
      ensures PlatformRequired in details <==> req.platforms == []
      ensures forall i, j :: 0 <= i < j < |details| ==>
                details[i] != PlatformRequired && details[j] in [BodyRequired, PlatformRequired] &&
                  details[i] != details[j]
    {
      hide ByteLength, TrimSpace;
      trimmed := req.(title := TrimSpace(req.title), body := TrimSpace(req.body));
      details := [];
      if trimmed.title == "" {
        details := details + [TitleRequired];
      } else if ByteLength(trimmed.title) > 200 {
        details := details + [TitleTooLong];
      }
      if trimmed.body == "" {
        details := details + [BodyRequired];
      }
      if |trimmed.platforms| == 0 {
        details := details + [PlatformRequired];
      }
    }

    /** No future draw names a stored content or task, or the content of a stored task. */
    ghost predicate Fresh()
      reads contents, tasks, ids
    {
      && Unused(ids.stream, ids.next, contents.content.Keys)
      && forall i: nat :: i >= ids.next ==> NewHere(tasks.tasks, ids.stream(i), ids.stream, ids.next)
    }

    /** One task per platform, each enqueued; a platform that has its task already is skipped. */
    method CreateTasks(contentID: string, platforms: seq<string>) returns (batch: seq<BatchTask>)
      requires NewHere(tasks.tasks, contentID, ids.stream, ids.next)
      modifies tasks, enqueuer, ids
      ensures var first, fs := old(ids.next), Firsts(platforms);
              && batch == BatchTasks(ids.stream, first, fs)
              && enqueuer.calls == old(enqueuer.calls) + Calls(contentID, batch)
              && tasks.tasks == TasksAdded(old(tasks.tasks), contentID, ids.stream, first, fs)
              && ids.next == first + |fs|
    {
      batch := [];
      ghost var first, stored, stream := ids.next, tasks.tasks, ids.stream;
      hide NewHere, ScanExists, ScanCreate, Firsts, TasksAdded, BatchTasks, Calls, PT.NewTask;
      StartsEmpty(stored, contentID, stream, first);
      for i := 0 to |platforms|
        invariant batch == BatchTasks(stream, first, Firsts(platforms[..i]))
        invariant enqueuer.calls == old(enqueuer.calls) + Calls(contentID, batch)
        invariant tasks.tasks == TasksAdded(stored, contentID, stream, first, Firsts(platforms[..i]))
        invariant ids.next == first + |Firsts(platforms[..i])|
      {
        LoopTurns(stored, contentID, stream, first, platforms, i);
        var r := tasks.CreateTask(contentID, platforms[i], ids);
        if r.Ok? {
          var task := r.value;
          var _ := enqueuer.EnqueuePublish(task.id, contentID, platforms[i], task.policy.maxRetries);
          batch := batch + [BatchTask(task.id, platforms[i], task.status)];
        }
      }
      assert platforms[..|platforms|] == platforms;
    }

    /** For a valid request: one pending task per platform, at its first mention, each enqueued exactly once with
        its own id, and the content, with trimmed title and body, left publishing at version 3. For an invalid one
        nothing happens. */
    method HandlePublish(req: Request) returns (response: Response)
      requires Fresh()
      modifies contents, tasks, enqueuer, ids, clock
      ensures Details(Trimmed(req)) != [] ==>
                && response == Invalid(Details(Trimmed(req)))
                && contents.content == old(contents.content) && tasks.tasks == old(tasks.tasks)
                && enqueuer.calls == old(enqueuer.calls) && ids.next == old(ids.next)
      ensures Details(Trimmed(req)) == [] ==>
                var next, fs := old(ids.next), Firsts(req.platforms);
                var contentID := ids.stream(next);
                && response == Accepted(contentID, BatchTasks(ids.stream, next + 1, fs)) && fs != []
                && enqueuer.calls == old(enqueuer.calls) + Calls(contentID, response.tasks)
                && tasks.tasks == TasksAdded(old(tasks.tasks), contentID, ids.stream, next + 1, fs)
                && contents.content == old(contents.content)[contentID :=
                     Record(Item(contentID, TrimSpace(req.title), TrimSpace(req.body), req.tags, Publishing,
                                 clock.readings(old(clock.next))), 3)]
    {
      hide TasksAdded, BatchTasks, Calls, Firsts, Details, TrimSpace, ByteLength;
      var trimmed, details := ValidatePublishRequest(req);
      if details != [] {
        return Invalid(details);
      }
      var content := contents.CreateContent(trimmed.title, trimmed.body, trimmed.tags, ids, clock);
      var notReady := contents.UpdateContent(content.id, Ready, 1);
      if notReady.Some? {
        return NotPrepared;
      }
      var notPublishing := contents.UpdateContent(content.id, Publishing, 2);
      if notPublishing.Some? {
        return NotPrepared;
      }
      SomeFirst(trimmed.platforms);
      var batch := CreateTasks(content.id, trimmed.platforms);
      if |batch| == 0 {
        return NoTasks;
      }
      return Accepted(content.id, batch);
    }

  }

  lemma StartsEmpty(tasks: ScanTable, contentID: string, ids: nat -> string, first: nat)
    ensures Firsts([]) == [] && TasksAdded(tasks, contentID, ids, first, []) == tasks
    ensures BatchTasks(ids, first, []) == [] && Calls(contentID, []) == []
  {
  }

  lemma SomeFirst(platforms: seq<string>)
    ensures platforms != [] ==> Firsts(platforms) != []
  {
    FirstsInOrder(platforms);
    if platforms != [] { assert platforms[0] in Firsts(platforms); }
  }
}
