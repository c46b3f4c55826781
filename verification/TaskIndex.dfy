/** The task store of internal/storage/memory.go, which scans all tasks for a pair, and when the indexed task
    store of internal/publish/storage.go answers exactly like it. */
module TaskIndex {
  import opened Contracts
  import opened Keys
  import opened PublishStores
  import PT = PublishTables

  type ScanTable = map<string, PT.Task>

  // ----- The scanning store -----

  predicate IsTaskOf(task: PT.Task, contentID: string, platform: string) {
    task.contentID == contentID && task.platform == platform
  }

  predicate ScanExists(tasks: ScanTable, contentID: string, platform: string) {
    exists id :: id in tasks && IsTaskOf(tasks[id], contentID, platform)
  }

  /** At most one task per pair. */
  ghost predicate UniquePairs(tasks: ScanTable) {
    forall id, id' :: id in tasks && id' in tasks && IsTaskOf(tasks[id'], tasks[id].contentID, tasks[id].platform) ==>
           id == id'
  }

  function ScanCreate(tasks: ScanTable, contentID: string, platform: string, id: string): ScanTable {
    if ScanExists(tasks, contentID, platform) then tasks else tasks[id := PT.NewTask(id, contentID, platform)]
  }

  /** Some task of the pair; UniquePairs leaves no choice. */
  ghost function ScanLookUp(tasks: ScanTable, contentID: string, platform: string): Result<PT.Task> {
    if ScanExists(tasks, contentID, platform) then
      var id :| id in tasks && IsTaskOf(tasks[id], contentID, platform);
      Ok(tasks[id])
    else Err(NotFound)
  }

  /** No transition check here. */
  function ScanUpdate(tasks: ScanTable, id: string, status: PublishTaskStatus, error: PT.Message): ScanTable {
    if id !in tasks then tasks else tasks[id := tasks[id].(status := status, error := error)]
  }

  function ScanIncrement(tasks: ScanTable, id: string): ScanTable {
    if id !in tasks then tasks else tasks[id := tasks[id].(attemptCount := tasks[id].attemptCount + 1)]
  }

  class ScanningTaskStore {
    var tasks: ScanTable

    constructor ()
      ensures tasks == map[]
    {
      tasks := map[];
    }

    /** Visit the tasks in any order until one belongs to the pair. */
    method Scan(contentID: string, platform: string) returns (found: Option<PT.Task>)
      ensures found.Some? <==> ScanExists(tasks, contentID, platform)
      ensures found.Some? ==>
              exists id :: id in tasks && tasks[id] == found.value && IsTaskOf(found.value, contentID, platform)
    {
      var toVisit := tasks.Keys;
      while toVisit != {}
        invariant toVisit <= tasks.Keys
        invariant forall id :: id in tasks && id !in toVisit ==> !IsTaskOf(tasks[id], contentID, platform)
        decreases |toVisit|
      {
        var id :| id in toVisit;
        toVisit := toVisit - {id};
        if tasks[id].contentID == contentID && tasks[id].platform == platform {
          return Some(tasks[id]);
        }
      }
      return None;
    }

    /** An id is drawn only for a new task. */
    method CreateTask(contentID: string, platform: string, ids: IDSource) returns (r: Result<PT.Task>)
      modifies this, ids
      ensures var found, id := ScanExists(old(tasks), contentID, platform), ids.stream(old(ids.next));
              && tasks == ScanCreate(old(tasks), contentID, platform, id)
              && r == (if found then Err(Conflict) else Ok(PT.NewTask(id, contentID, platform)))
              && ids.next == old(ids.next) + (if found then 0 else 1)
    {
      var existing := Scan(contentID, platform);
      if existing.Some? {
        return Err(Conflict);
      }
      var id := ids.Generate();
      var task := PT.NewTask(id, contentID, platform);
      tasks := tasks[id := task];
      return Ok(task);
    }

    /** Without two tasks of one pair, the order of the visit does not matter. */
    method GetTaskByContentPlatform(contentID: string, platform: string) returns (r: Result<PT.Task>)
      ensures UniquePairs(tasks) ==> r == ScanLookUp(tasks, contentID, platform)
      ensures r.Ok? ==> IsTaskOf(r.value, contentID, platform) && r.value in tasks.Values
      ensures r.Err? ==> r.error == NotFound && !ScanExists(tasks, contentID, platform)
    {
      var found := Scan(contentID, platform);
      return if found.Some? then Ok(found.value) else Err(NotFound);
    }

    method UpdateTaskStatus(id: string, status: PublishTaskStatus, error: PT.Message)
      returns (failed: Option<StoreError>)
      modifies this
      ensures tasks == ScanUpdate(old(tasks), id, status, error)
      ensures failed == if id in old(tasks) then None else Some(NotFound)
    {
      if id !in tasks {
        return Some(NotFound);
      }
      tasks := tasks[id := tasks[id].(status := status, error := error)];
      return None;
    }

    method IncrementAttemptCount(id: string) returns (failed: Option<StoreError>)
      modifies this
      ensures tasks == ScanIncrement(old(tasks), id)
      ensures failed == if id in old(tasks) then None else Some(NotFound)
    {
      if id !in tasks {
        return Some(NotFound);
      }
      tasks := tasks[id := tasks[id].(attemptCount := tasks[id].attemptCount + 1)];
      return None;
    }
  }

  // ----- Both stores over the same trace -----

  datatype TaskOp =
    | Create(contentID: string, platform: string, id: string)
    | LookUp(contentID: string, platform: string)
    | Update(id: string, status: PublishTaskStatus, error: PT.Message)
    | Increment(id: string)

  datatype TaskAnswer = Task(r: Result<PT.Task>) | Written(failed: Option<StoreError>)

  function IndexApply(t: PT.TaskTable, op: TaskOp): PT.TaskTable {
    match op
    case Create(contentID, platform, id) => PT.CreateTask(t, contentID, platform, id)
    case LookUp(_, _) => t
    case Update(id, status, error) => PT.UpdateTask(t, id, status, error)
    case Increment(id) => PT.IncrementAttempts(t, id)
  }

  function IndexAnswer(t: PT.TaskTable, op: TaskOp): TaskAnswer {
    match op
    case Create(contentID, platform, id) =>
      Task(if PT.TaskExists(t, contentID, platform) then Err(Conflict) else Ok(PT.NewTask(id, contentID, platform)))
    case LookUp(contentID, platform) => Task(PT.LookUpTask(t, contentID, platform))
    case Update(id, status, _) => Written(PT.UpdateTaskError(t, id, status))
    case Increment(id) => Written(if id in t.tasks then None else Some(NotFound))
  }

  function ScanApply(tasks: ScanTable, op: TaskOp): ScanTable {
    match op
    case Create(contentID, platform, id) => ScanCreate(tasks, contentID, platform, id)
    case LookUp(_, _) => tasks
    case Update(id, status, error) => ScanUpdate(tasks, id, status, error)
    case Increment(id) => ScanIncrement(tasks, id)
  }

  ghost function ScanAnswer(tasks: ScanTable, op: TaskOp): TaskAnswer {
    match op
    case Create(contentID, platform, id) =>
      Task(if ScanExists(tasks, contentID, platform) then Err(Conflict) else Ok(PT.NewTask(id, contentID, platform)))
    case LookUp(contentID, platform) => Task(ScanLookUp(tasks, contentID, platform))
    case Update(id, _, _) => Written(if id in tasks then None else Some(NotFound))
    case Increment(id) => Written(if id in tasks then None else Some(NotFound))
  }

  function IndexAnswers(t: PT.TaskTable, ops: seq<TaskOp>): seq<TaskAnswer>
    decreases ops
  {
    if ops == [] then [] else [IndexAnswer(t, ops[0])] + IndexAnswers(IndexApply(t, ops[0]), ops[1..])
  }

  ghost function ScanAnswers(tasks: ScanTable, ops: seq<TaskOp>): seq<TaskAnswer>
    decreases ops
  {
    if ops == [] then [] else [ScanAnswer(tasks, ops[0])] + ScanAnswers(ScanApply(tasks, ops[0]), ops[1..])
  }

  function IndexAfter(t: PT.TaskTable, ops: seq<TaskOp>): PT.TaskTable
    decreases ops
  {
    if ops == [] then t else IndexAfter(IndexApply(t, ops[0]), ops[1..])
  }

  function ScanAfter(tasks: ScanTable, ops: seq<TaskOp>): ScanTable
    decreases ops
  {
    if ops == [] then tasks else ScanAfter(ScanApply(tasks, ops[0]), ops[1..])
  }

  /** Created tasks get fresh ids, and status writes follow the transition table. */
  predicate OpOk(t: PT.TaskTable, op: TaskOp, contentIDs: set<string>) {
    match op
    case Create(contentID, _, id) => contentID in contentIDs && id !in t.tasks
    case LookUp(contentID, _) => contentID in contentIDs
    case Update(id, status, _) => id in t.tasks ==> t.tasks[id].status.CanTransitionTo(status)
    case Increment(_) => true
  }

  predicate TraceOk(t: PT.TaskTable, ops: seq<TaskOp>, contentIDs: set<string>)
    decreases ops
  {
    ops == [] || (OpOk(t, ops[0], contentIDs) && TraceOk(IndexApply(t, ops[0]), ops[1..], contentIDs))
  }

  /** No two of the content ids can share a key of the index. */
  ghost predicate CollisionFree(contentIDs: set<string>) {
    forall a, b :: a in contentIDs && b in contentIDs && a != b ==> !CanCollide(a, b)
  }

  /** The index is consistent and holds tasks of these contents only. */
  ghost predicate Matches(t: PT.TaskTable, contentIDs: set<string>) {
    PT.Indexed(t) && forall id :: id in t.tasks ==> t.tasks[id].contentID in contentIDs
  }

  lemma ComboDecides(contentIDs: set<string>, a: string, p: string, b: string, q: string)
    requires CollisionFree(contentIDs) && a in contentIDs && b in contentIDs && Combo(a, p) == Combo(b, q)
    ensures a == b && p == q
  {
    if a == b {
      var k := Combo(a, p);
      assert k[|a| + 1..] == p && k[|b| + 1..] == q;
    }
  }

  lemma IndexFindsWhatScanFinds(t: PT.TaskTable, contentIDs: set<string>, contentID: string, platform: string)
    requires CollisionFree(contentIDs) && Matches(t, contentIDs) && contentID in contentIDs
    ensures PT.TaskExists(t, contentID, platform) <==> ScanExists(t.tasks, contentID, platform)
    ensures PT.LookUpTask(t, contentID, platform) == ScanLookUp(t.tasks, contentID, platform)
  {
    var combo := Combo(contentID, platform);
    if combo in t.byCombo {
      var id := t.byCombo[combo];
      assert PT.IndexEntryOk(t, combo);
      ComboDecides(contentIDs, t.tasks[id].contentID, t.tasks[id].platform, contentID, platform);
      assert IsTaskOf(t.tasks[id], contentID, platform);
    }
    forall id | id in t.tasks && IsTaskOf(t.tasks[id], contentID, platform)
      ensures combo in t.byCombo && t.byCombo[combo] == id
    {
      assert PT.TaskReached(t, id);
    }
    hide PT.Indexed, CollisionFree, Combo;
  }

  predicate SameIdentity(task: PT.Task, task': PT.Task) {
    task'.id == task.id && task'.contentID == task.contentID && task'.platform == task.platform
  }

  lemma RewritingMatches(t: PT.TaskTable, contentIDs: set<string>, id: string, task': PT.Task)
    requires Matches(t, contentIDs) && id in t.tasks && SameIdentity(t.tasks[id], task')
    ensures Matches(t.(tasks := t.tasks[id := task']), contentIDs)
  {
    var t' := t.(tasks := t.tasks[id := task']);
    forall k | k in t'.byCombo ensures PT.IndexEntryOk(t', k) { assert PT.IndexEntryOk(t, k); }
    forall u | u in t'.tasks ensures PT.TaskReached(t', u) { assert PT.TaskReached(t, u); }
  }

  lemma CreatingMatches(t: PT.TaskTable, contentIDs: set<string>, contentID: string, platform: string, id: string)
    requires Matches(t, contentIDs) && contentID in contentIDs && id !in t.tasks
    ensures Matches(PT.CreateTask(t, contentID, platform, id), contentIDs)
  {
    var t' := PT.CreateTask(t, contentID, platform, id);
    forall k | k in t'.byCombo ensures PT.IndexEntryOk(t', k) {
      if k in t.byCombo { assert PT.IndexEntryOk(t, k); }
    }
    forall u | u in t'.tasks ensures PT.TaskReached(t', u) {
      if u in t.tasks { assert PT.TaskReached(t, u); }
    }
  }

  lemma MatchesStep(t: PT.TaskTable, contentIDs: set<string>, op: TaskOp)
    requires Matches(t, contentIDs) && OpOk(t, op, contentIDs)
    ensures Matches(IndexApply(t, op), contentIDs)
  {
    hide PublishTaskStatus.CanTransitionTo, Matches, PT.CreateTask;
    match op {
      case Create(contentID, platform, id) => CreatingMatches(t, contentIDs, contentID, platform, id);
      case LookUp(_, _) =>
      case Update(id, status, error) =>
        if id in t.tasks { RewritingMatches(t, contentIDs, id, t.tasks[id].(status := status, error := error)); }
      case Increment(id) =>
        if id in t.tasks {
          RewritingMatches(t, contentIDs, id, t.tasks[id].(attemptCount := t.tasks[id].attemptCount + 1));
        }
    }
  }

  lemma AgreeStep(t: PT.TaskTable, contentIDs: set<string>, op: TaskOp)
    requires CollisionFree(contentIDs) && Matches(t, contentIDs) && OpOk(t, op, contentIDs)
    ensures IndexApply(t, op).tasks == ScanApply(t.tasks, op)
    ensures IndexAnswer(t, op) == ScanAnswer(t.tasks, op)
  {
    hide CollisionFree, Matches, PT.TaskExists, ScanExists, ScanLookUp, PT.LookUpTask,
         PublishTaskStatus.CanTransitionTo;
    if op.Create? || op.LookUp? {
      IndexFindsWhatScanFinds(t, contentIDs, op.contentID, op.platform);
    }
  }

  lemma MatchingIsUnique(t: PT.TaskTable, contentIDs: set<string>)
    requires Matches(t, contentIDs)
    ensures UniquePairs(t.tasks)
  {
    forall id, id' | id in t.tasks && id' in t.tasks &&
           IsTaskOf(t.tasks[id'], t.tasks[id].contentID, t.tasks[id].platform)
      ensures id == id'
    {
      assert PT.TaskReached(t, id) && PT.TaskReached(t, id');
    }
  }

  /** Over content ids that cannot collide, the indexed store and the scanning store give the same answers to
      every trace and end with the same tasks, at most one per pair. */
  lemma {:induction false} IndexRefinesScan(t: PT.TaskTable, ops: seq<TaskOp>, contentIDs: set<string>)
    requires CollisionFree(contentIDs) && Matches(t, contentIDs) && TraceOk(t, ops, contentIDs)
    ensures IndexAnswers(t, ops) == ScanAnswers(t.tasks, ops)
    ensures IndexAfter(t, ops).tasks == ScanAfter(t.tasks, ops)
    ensures UniquePairs(ScanAfter(t.tasks, ops))
    decreases ops
  {
    hide CollisionFree, Matches, OpOk, IndexApply, ScanApply, IndexAnswer, ScanAnswer, UniquePairs;
    if ops == [] {
      MatchingIsUnique(t, contentIDs);
    } else {
      MatchesStep(t, contentIDs, ops[0]);
      AgreeStep(t, contentIDs, ops[0]);
      IndexRefinesScan(IndexApply(t, ops[0]), ops[1..], contentIDs);
    }
  }

  /** Colon-free content ids, which generated ids are, cannot collide. */
  lemma ColonFreeIDsDoNotCollide(contentIDs: set<string>)
    requires forall id :: id in contentIDs ==> ColonFree(id)
    ensures CollisionFree(contentIDs)
  {
    forall a, b | a in contentIDs && b in contentIDs && a != b ensures !CanCollide(a, b) {
      if CanCollide(a, b) {
        var p: string, q: string :| Combo(a, p) == Combo(b, q);
        JoinInjective(a, p, b, q);
      }
    }
  }

  /** The two stores answer every admissible trace of these contents alike. */
  ghost predicate SameAnswers(contentIDs: set<string>) {
    forall ops :: TraceOk(PT.TaskTable(map[], map[]), ops, contentIDs) ==>
                    IndexAnswers(PT.TaskTable(map[], map[]), ops) == ScanAnswers(map[], ops)
  }

  lemma TwoAnswers(t: PT.TaskTable, tasks: ScanTable, one: TaskOp, two: TaskOp)
    ensures IndexAnswers(t, [one, two]) == [IndexAnswer(t, one), IndexAnswer(IndexApply(t, one), two)]
    ensures ScanAnswers(tasks, [one, two]) == [ScanAnswer(tasks, one), ScanAnswer(ScanApply(tasks, one), two)]
  {
    hide IndexAnswer, IndexApply, ScanAnswer, ScanApply;
    assert [one, two][1..] == [two] && [two][1..] == [];
    assert IndexAnswers(IndexApply(t, one), [two]) == [IndexAnswer(IndexApply(t, one), two)];
    assert ScanAnswers(ScanApply(tasks, one), [two]) == [ScanAnswer(ScanApply(tasks, one), two)];
  }

  lemma TwoCreationsOk(a: string, p: string, b: string, q: string, contentIDs: set<string>)
    requires a in contentIDs && b in contentIDs
    ensures TraceOk(PT.TaskTable(map[], map[]), [Create(a, p, "1"), Create(b, q, "2")], contentIDs)
  {
    var empty, one, two := PT.TaskTable(map[], map[]), Create(a, p, "1"), Create(b, q, "2");
    assert [one, two][1..] == [two] && [two][1..] == [];
    assert "2"[0] != "1"[0];
    assert IndexApply(empty, one).tasks.Keys == {"1"};
    assert TraceOk(IndexApply(empty, one), [two], contentIDs);
  }

  /** Two colliding contents: the second creation is refused by the index and accepted by the scan. */
  lemma CollisionTells(a: string, p: string, b: string, q: string, contentIDs: set<string>)
    requires a in contentIDs && b in contentIDs && a != b && Combo(a, p) == Combo(b, q)
    ensures !SameAnswers(contentIDs)
  {
    hide Combo;
    var empty, one, two := PT.TaskTable(map[], map[]), Create(a, p, "1"), Create(b, q, "2");
    TwoCreationsOk(a, p, b, q, contentIDs);
    TwoAnswers(empty, map[], one, two);
    assert IndexAnswer(IndexApply(empty, one), two) == Task(Err(Conflict));
    assert !ScanExists(ScanApply(map[], one), b, q);
    assert ScanAnswer(ScanApply(map[], one), two) == Task(Ok(PT.NewTask("2", b, q)));
    assert IndexAnswers(empty, [one, two])[1] != ScanAnswers(map[], [one, two])[1];
  }

  /** Exactly: the index answers like the scan if and only if no two of the content ids can share a key. */
  lemma {:induction false} SameAnswersExactly(contentIDs: set<string>)
    ensures SameAnswers(contentIDs) <==> CollisionFree(contentIDs)
  {
    var empty := PT.TaskTable(map[], map[]);
    if CollisionFree(contentIDs) {
      forall ops | TraceOk(empty, ops, contentIDs) ensures IndexAnswers(empty, ops) == ScanAnswers(map[], ops) {
        IndexRefinesScan(empty, ops, contentIDs);
      }
    } else {
      var a, b :| a in contentIDs && b in contentIDs && a != b && CanCollide(a, b);
      var p: string, q: string :| Combo(a, p) == Combo(b, q);
      CollisionTells(a, p, b, q, contentIDs);
    }
  }

  /** Exactly: the two stores answer a status write alike if and only if the task is unknown or the write follows
      the transition table; and then they store the same. */
  lemma {:induction false} UpdatesAgreeExactly(t: PT.TaskTable, id: string, status: PublishTaskStatus,
                                               error: PT.Message)
    ensures var write := Update(id, status, error);
            && (IndexAnswer(t, write) == ScanAnswer(t.tasks, write)
                <==> (id in t.tasks ==> t.tasks[id].status.CanTransitionTo(status)))
            && (IndexAnswer(t, write) == ScanAnswer(t.tasks, write) ==>
                IndexApply(t, write).tasks == ScanApply(t.tasks, write))
            && (IndexAnswer(t, write) != ScanAnswer(t.tasks, write) ==>
                  IndexApply(t, write) == t && ScanApply(t.tasks, write)[id].status == status &&
                    ScanApply(t.tasks, write)[id].error == error)
  {
    hide PublishTaskStatus.CanTransitionTo;
  }

  /** For one: the write of Dead to a processing task, with which a retry loop ends that is out of retries. */
  lemma {:induction false} DeadWriteTellsThemApart(t: PT.TaskTable, id: string, error: PT.Message)
    requires id in t.tasks && t.tasks[id].status == Processing
    ensures IndexAnswer(t, Update(id, Dead, error)) != ScanAnswer(t.tasks, Update(id, Dead, error))
    ensures IndexApply(t, Update(id, Dead, error)).tasks[id].status == Processing
    ensures ScanApply(t.tasks, Update(id, Dead, error))[id].status == Dead
  {
    UpdatesAgreeExactly(t, id, Dead, error);
    hide IndexAnswer, ScanAnswer, IndexApply, ScanApply;
  }
}
