/** The in-memory stores of internal/publish/storage.go, updated in place and proved against PublishTables. */
module PublishStores {
  import opened Contracts
  import opened Keys
  import opened Policy
  import Sorting
  import PT = PublishTables

  // ----- Where fresh ids and the time come from -----

  /** Drawn ids never repeat and never hold a colon. */
  ghost predicate DistinctIDs(stream: nat -> string) {
    && (forall i: nat, j: nat :: stream(i) == stream(j) ==> i == j)
    && (forall i: nat :: ColonFree(stream(i)))
  }

  /** The id generator, as an arbitrary stream of draws. */
  class IDSource {
    const stream: nat -> string
    var next: nat

    constructor (stream: nat -> string)
      ensures this.stream == stream && next == 0
    {
      this.stream := stream;
      next := 0;
    }

    method Generate() returns (id: string)
      modifies this
      ensures id == stream(old(next)) && next == old(next) + 1
    {
      id := stream(next);
      next := next + 1;
    }
  }

  /** No draw that is still to come is among these ids. */
  ghost predicate Unused(stream: nat -> string, next: nat, ids: set<string>) {
    forall i: nat :: i >= next ==> stream(i) !in ids
  }

  /** The wall clock, as an arbitrary stream of readings. */
  class Clock {
    const readings: nat -> int
    var next: nat

    constructor (readings: nat -> int)
      ensures this.readings == readings && next == 0
    {
      this.readings := readings;
      next := 0;
    }

    method Now() returns (t: int)
      modifies this
      ensures t == readings(old(next)) && next == old(next) + 1
    {
      t := readings(next);
      next := next + 1;
    }
  }

  // ----- Content -----

  class MemoryContentStore {
    var entries: PT.ContentTable

    constructor ()
      ensures entries == map[]
    {
      entries := map[];
    }

    method CreateContent(title: string, body: string, tags: seq<string>, ids: IDSource) returns (c: PT.Content)
      modifies this, ids
      ensures ids.next == old(ids.next) + 1
      ensures c == PT.Content(ids.stream(old(ids.next)), title, body, tags, Draft)
      ensures entries == old(entries)[c.id := PT.ContentRecord(c, 1)]
    {
      var id := ids.Generate();
      c := PT.Content(id, title, body, tags, Draft);
      entries := entries[id := PT.ContentRecord(c, 1)];
    }

    method GetContent(id: string) returns (r: Result<PT.Content>)
      ensures r == PT.GetContent(entries, id)
    {
      if id !in entries {
        return Err(NotFound);
      }
      return Ok(entries[id].content);
    }

    method UpdateContent(id: string, status: ContentStatus, version: int) returns (error: Option<StoreError>)
      modifies this
      ensures error == PT.UpdateContentError(old(entries), id, status, version)
      ensures entries == PT.UpdateContent(old(entries), id, status, version)
    {
      if id !in entries {
        return Some(NotFound);
      }
      var entry := entries[id];
      if version > 0 && entry.version != version {
        return Some(VersionConflict);
      }
      if !entry.content.status.CanTransitionTo(status) {
        return Some(InvalidTransition);
      }
      entries := entries[id := PT.ContentRecord(entry.content.(status := status), entry.version + 1)];
      return None;
    }
  }

  // ----- Tasks -----

  /** A stored task. CreateTask hands out the stored object itself; every getter hands out a copy. */
  class PublishTask {
    const id: string
    const contentID: string
    const platform: string
    const policy: RetryPolicy
    var status: PublishTaskStatus
    var attemptCount: int
    var error: PT.Message
    ghost var history: seq<PublishTaskStatus>   // every status the task has had, oldest first

    constructor (id: string, contentID: string, platform: string)
      ensures Snapshot() == PT.NewTask(id, contentID, platform)
      ensures history == [Pending]
    {
      this.id := id;
      this.contentID := contentID;
      this.platform := platform;
      policy := DefaultRetryPolicy();
      status := Pending;
      attemptCount := 0;
      error := PT.NoMessage;
      history := [Pending];
    }

    function Snapshot(): PT.Task
      reads this
    {
      PT.Task(id, contentID, platform, policy, status, attemptCount, error)
    }

    /** The past of a task is a path of the transition table that ends where it stands. */
    ghost predicate HistoryOk()
      reads this
    {
      history != [] && history[|history| - 1] == status && LegalTaskPath(history)
    }

    ghost predicate Holds(row: PT.Task)
      reads this
    {
      Snapshot() == row && HistoryOk()
    }

    lemma HoldsMeans(row: PT.Task)
      ensures Holds(row) <==> Snapshot() == row && HistoryOk()
    {
    }

    /** One step along the transition table. */
    method Enter(status: PublishTaskStatus, error: PT.Message)
      requires HistoryOk() && this.status.CanTransitionTo(status)
      modifies this
      ensures HistoryOk() && history == old(history) + [status]
      ensures Snapshot() == old(Snapshot()).(status := status, error := error)
    {
      this.status := status;
      this.error := error;
      history := history + [status];
      hide PublishTaskStatus.CanTransitionTo;
    }

    method CountAttempt()
      modifies this
      ensures old(HistoryOk()) ==> HistoryOk()
      ensures history == old(history) && Snapshot() == old(Snapshot()).(attemptCount := old(attemptCount) + 1)
    {
      attemptCount := attemptCount + 1;
    }
  }

  class MemoryPublishTaskStore {
    var tasks: map<string, PublishTask>
    var byCombo: map<string, string>
    ghost var rows: map<string, PT.Task>   // what the stored tasks hold

    constructor ()
      ensures Valid() && Table() == PT.TaskTable(map[], map[])
    {
      tasks, byCombo, rows := map[], map[], map[];
    }

    ghost function Table(): PT.TaskTable
      reads this
    {
      PT.TaskTable(rows, byCombo)
    }

    ghost predicate Valid()
      reads this, tasks.Values
    {
      && rows.Keys == tasks.Keys
      && (forall id :: id in tasks ==> tasks[id].id == id && tasks[id].Holds(rows[id]))
      && (forall k :: k in byCombo ==> byCombo[k] in tasks)
    }

    /** On success the caller holds the stored task: it will see every later update. */
    method CreateTask(contentID: string, platform: string, ids: IDSource) returns (r: Result<PublishTask>)
      requires Valid() && Unused(ids.stream, ids.next, tasks.Keys)
      modifies this, ids
      ensures Valid()
      ensures Table() == PT.CreateTask(old(Table()), contentID, platform, ids.stream(old(ids.next)))
      ensures r.Err? <==> PT.TaskExists(old(Table()), contentID, platform)
      ensures r.Err? ==> r.error == Conflict && ids.next == old(ids.next) && tasks == old(tasks)
      ensures r.Ok? ==>
                && ids.next == old(ids.next) + 1 && fresh(r.value)
                && tasks == old(tasks)[ids.stream(old(ids.next)) := r.value]
                && r.value.Snapshot() == PT.NewTask(ids.stream(old(ids.next)), contentID, platform)
                && r.value.history == [Pending]
    {
      var combo := Combo(contentID, platform);
      if combo in byCombo {
        return Err(Conflict);
      }
      var id := ids.Generate();
      var task := new PublishTask(id, contentID, platform);
      tasks := tasks[id := task];
      byCombo := byCombo[combo := id];
      rows := rows[id := task.Snapshot()];
      return Ok(task);
    }

    method GetTaskByContentPlatform(contentID: string, platform: string) returns (r: Result<PT.Task>)
      requires Valid()
      ensures r == PT.LookUpTask(Table(), contentID, platform)
    {
      var combo := Combo(contentID, platform);
      if combo !in byCombo {
        return Err(NotFound);
      }
      return Ok(tasks[byCombo[combo]].Snapshot());
    }

    method UpdateTaskStatus(id: string, status: PublishTaskStatus, error: PT.Message)
      returns (failed: Option<StoreError>)
      requires Valid()
      modifies `rows, if id in tasks then {tasks[id]} else {}
      ensures Valid()
      ensures failed == PT.UpdateTaskError(old(Table()), id, status)
      ensures Table() == PT.UpdateTask(old(Table()), id, status, error)
      ensures id in tasks ==> tasks[id].history == old(tasks[id].history) + (if failed == None then [status] else [])
    {
      hide PublishTaskStatus.CanTransitionTo, PublishTask.HistoryOk, PublishTask.Holds;
      if id !in tasks {
        return Some(NotFound);
      }
      var task := tasks[id];
      task.HoldsMeans(rows[id]);
      if !task.status.CanTransitionTo(status) {
        return Some(InvalidTransition);
      }
      task.Enter(status, error);
      rows := rows[id := task.Snapshot()];
      task.HoldsMeans(rows[id]);
      return None;
    }

    method IncrementAttemptCount(id: string) returns (failed: Option<StoreError>)
      requires Valid()
      modifies `rows, if id in tasks then {tasks[id]} else {}
      ensures Valid()
      ensures failed == if id in tasks then None else Some(NotFound)
      ensures Table() == PT.IncrementAttempts(old(Table()), id)
      ensures id in tasks ==> tasks[id].history == old(tasks[id].history)
    {
      hide PublishTask.HistoryOk, PublishTask.Holds;
      if id !in tasks {
        return Some(NotFound);
      }
      var task := tasks[id];
      task.HoldsMeans(rows[id]);
      task.CountAttempt();
      rows := rows[id := task.Snapshot()];
      task.HoldsMeans(rows[id]);
      return None;
    }
  }

  // ----- Attempts and posts -----

  class MemoryPublishAttemptStore {
    var attempts: PT.AttemptTable

    constructor ()
      ensures attempts == map[]
    {
      attempts := map[];
    }

    method CreateAttempt(taskID: string, number: int, ids: IDSource) returns (a: PT.Attempt)
      modifies this, ids
      ensures ids.next == old(ids.next) + 1
      ensures a == PT.Attempt(ids.stream(old(ids.next)), taskID, number, Processing, false, PT.NoMessage)
      ensures attempts == PT.CreateAttempt(old(attempts), taskID, number, ids.stream(old(ids.next)))
    {
      var id := ids.Generate();
      a := PT.Attempt(id, taskID, number, Processing, false, PT.NoMessage);
      attempts := attempts[id := a];
    }

    method CompleteAttempt(id: string, status: PublishTaskStatus, error: PT.Message)
      returns (failed: Option<StoreError>)
      modifies this
      ensures failed == if id in old(attempts) then None else Some(NotFound)
      ensures attempts == PT.CompleteAttempt(old(attempts), id, status, error)
    {
      if id !in attempts {
        return Some(NotFound);
      }
      attempts := attempts[id := attempts[id].(status := status, completed := true, error := error)];
      return None;
    }

    /** Copies of the task's attempts as the iteration over the map happens to find them; nothing is sorted. */
    method GetAttemptsByTask(taskID: string) returns (result: seq<PT.Attempt>)
      ensures exists order :: PT.ListsAttempts(attempts, taskID, order) && result == PT.AttemptsAt(attempts, order)
    {
      var order := FilterAttempts(attempts, taskID);
      result := PT.AttemptsAt(attempts, order);
    }
  }

  /** Visit all attempts in any order and keep those of the task. */
  method FilterAttempts(attempts: PT.AttemptTable, taskID: string) returns (order: seq<string>)
    ensures PT.ListsAttempts(attempts, taskID, order)
  {
    order := [];
    var toVisit := attempts.Keys;
    while toVisit != {}
      invariant toVisit <= attempts.Keys
      invariant forall id :: id in order <==> id in attempts && attempts[id].taskID == taskID && id !in toVisit
      invariant Sorting.Distinct(order)
      decreases |toVisit|
    {
      var id :| id in toVisit;
      toVisit := toVisit - {id};
      if attempts[id].taskID == taskID {
        order := order + [id];
      }
    }
  }

  class MemoryPlatformPostStore {
    var records: PT.PostTable

    constructor ()
      ensures records == map[]
    {
      records := map[];
    }

    method CreatePlatformPost(taskID: string, platform: string, result: PT.PublishResult, ids: IDSource)
      returns (failed: Option<StoreError>)
      modifies this, ids
      ensures failed == if taskID in old(records) then Some(Conflict) else None
      ensures ids.next == old(ids.next) + (if failed == None then 1 else 0)
      ensures records == PT.CreatePost(old(records), taskID, platform, result, ids.stream(old(ids.next)))
    {
      if taskID in records {
        return Some(Conflict);
      }
      var id := ids.Generate();
      records := records[taskID := PT.Post(id, taskID, platform, result)];
      return None;
    }
  }

  // ----- Leases -----

  /** Two packages keep leases the same way and differ only in the order of the two parts of the key. */
  class MemoryIdempotencyStore {
    const keyFirst: bool
    var entries: PT.LeaseTable

    constructor (keyFirst: bool)
      ensures this.keyFirst == keyFirst && entries == map[]
    {
      this.keyFirst := keyFirst;
      entries := map[];
    }

    function FullKey(scope: string, key: string): string {
      if keyFirst then Join(key, scope) else ScopedKey(scope, key)
    }

    method Claim(scope: string, key: string, entityID: string, ttl: int, clock: Clock) returns (claimed: bool)
      modifies `entries, clock
      ensures claimed == PT.ClaimGranted(old(entries), FullKey(scope, key), clock.readings(old(clock.next)))
      ensures var held := FullKey(scope, key) in old(entries);
              && entries == PT.Claim(old(entries), FullKey(scope, key), entityID, ttl, clock.readings(old(clock.next)),
                                     clock.readings(old(clock.next) + (if held then 1 else 0)))
              && clock.next == old(clock.next) + (if held && claimed then 2 else 1)
    {
      var fullKey := FullKey(scope, key);
      if fullKey in entries {
        var now := clock.Now();
        if now < entries[fullKey].expiresAt {
          return false;
        }
      }
      var later := clock.Now();
      entries := entries[fullKey := PT.Lease(entityID, later + ttl)];
      return true;
    }

    /** The clock is read only if there is a lease. */
    method Get(scope: string, key: string, clock: Clock) returns (entityID: Option<string>)
      modifies clock
      ensures entityID == PT.GetLease(entries, FullKey(scope, key), clock.readings(old(clock.next)))
      ensures clock.next == old(clock.next) + (if FullKey(scope, key) in entries then 1 else 0)
    {
      var fullKey := FullKey(scope, key);
      if fullKey !in entries {
        return None;
      }
      var now := clock.Now();
      if now > entries[fullKey].expiresAt {
        return None;
      }
      return Some(entries[fullKey].entityID);
    }

    /** Visit every lease, in any order, and delete the expired ones. */
    method Cleanup(clock: Clock) returns (removed: nat)
      modifies `entries, clock
      ensures entries == PT.Cleanup(old(entries), clock.readings(old(clock.next)))
      ensures removed == |old(entries)| - |entries|
      ensures clock.next == old(clock.next) + 1
    {
      var now := clock.Now();
      removed := 0;
      var toVisit := entries.Keys;
      while toVisit != {}
        invariant toVisit <= entries.Keys <= old(entries).Keys
        invariant forall k :: k in entries ==> entries[k] == old(entries)[k]
        invariant forall k :: k in old(entries) && k !in toVisit ==>
                  (k in entries <==> !(now > old(entries)[k].expiresAt))
        invariant removed + |entries| == |old(entries)|
        invariant clock.next == old(clock.next) + 1
        decreases |toVisit|
      {
        var k :| k in toVisit;
        toVisit := toVisit - {k};
        if now > entries[k].expiresAt {
          assert |entries - {k}| == |entries| - 1 by { assert (entries - {k}).Keys == entries.Keys - {k}; }
          entries := entries - {k};
          removed := removed + 1;
        }
      }
      assert entries == PT.Cleanup(old(entries), now);
    }
  }
}
