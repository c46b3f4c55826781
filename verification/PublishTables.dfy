/** What the in-memory stores of internal/publish/storage.go hold, and each of their operations as a
    function from the old table to the new one. The store classes are proved against these functions, and
    the step machine of module Protocol takes them as its atomic steps. */
module PublishTables {
  import opened Contracts
  import opened Keys
  import opened Policy
  import Sorting

  // ----- Error texts -----

  /** An error text, kept as the words that were put together to make it. */
  datatype Message =
    | NoMessage
    | ValidationFailed(cause: string)
    | UploadFailed(cause: string)
    | PermanentFailure(cause: string)
    | RetriesExhausted(maxRetries: int, cause: string)
    | Cause(cause: string)
    | LoopExited
    | PlatformNotFound(platform: string)
    | LookupFailed
    | CreateFailed

  // ----- Content -----

  datatype Content = Content(id: string, title: string, body: string, tags: seq<string>, status: ContentStatus)
  datatype ContentRecord = ContentRecord(content: Content, version: int)
  type ContentTable = map<string, ContentRecord>

  function GetContent(t: ContentTable, id: string): Result<Content> {
    if id in t then Ok(t[id].content) else Err(NotFound)
  }

  /** Version 0 or less skips the version check; the transition is always checked. */
  function UpdateContentError(t: ContentTable, id: string, status: ContentStatus, version: int): Option<StoreError> {
    if id !in t then Some(NotFound)
    else if version > 0 && t[id].version != version then Some(VersionConflict)
    else if !t[id].content.status.CanTransitionTo(status) then Some(InvalidTransition)
    else None
  }

  function UpdateContent(t: ContentTable, id: string, status: ContentStatus, version: int): ContentTable {
    if UpdateContentError(t, id, status, version) != None then t
    else t[id := ContentRecord(t[id].content.(status := status), t[id].version + 1)]
  }

  /** Writes with the version of a snapshot, or with none (0 or less): the refusals in their order, what an accepted
      write changes, and that of two writes with one version at most one is accepted. */
  lemma VersionedWrites(t: ContentTable, id: string, status: ContentStatus, version: int, again: ContentStatus)
    ensures var refused, t' := UpdateContentError(t, id, status, version), UpdateContent(t, id, status, version);
            if id !in t then refused == Some(NotFound) && t' == t
            else if version > 0 && version != t[id].version then refused == Some(VersionConflict) && t' == t
            else if !LegalContentPath([t[id].content.status, status]) then
              refused == Some(InvalidTransition) && t' == t
            else
              && refused == None && t'.Keys == t.Keys && (forall k :: k in t && k != id ==> t'[k] == t[k])
              && t'[id].version == t[id].version + 1 && t'[id].content.status == status
              && t'[id].content == Content(t[id].content.id, t[id].content.title, t[id].content.body,
                                           t[id].content.tags, status)
              && (version > 0 ==> UpdateContentError(t', id, again, version) == Some(VersionConflict))
  {
    if id in t {
      var path := [t[id].content.status, status];
      assert path[0].CanTransitionTo(path[1]) ==> LegalContentPath(path);
      assert LegalContentPath(path) ==> path[1 - 1].CanTransitionTo(path[1]);
    }
  }

  /** The status of a content after its tasks: published if there are tasks and all of them succeeded,
      partially published if only some did, and failed otherwise. */
  function AggregateStatus(statuses: seq<PublishTaskStatus>): (r: ContentStatus)
    ensures r in [Published, PartiallyPublished, ContentStatus.Failed]
  {
    if statuses == [] then ContentStatus.Failed
    else if forall i :: 0 <= i < |statuses| ==> statuses[i] == Succeeded then Published
    else if exists i :: 0 <= i < |statuses| && statuses[i] == Succeeded then PartiallyPublished
    else ContentStatus.Failed
  }

  // ----- Tasks -----

  datatype Task = Task(
    id: string,
    contentID: string,
    platform: string,
    policy: RetryPolicy,
    status: PublishTaskStatus,
    attemptCount: int,
    error: Message)

  /** Tasks by id, and the index from "contentID:platform" to the id. */
  datatype TaskTable = TaskTable(tasks: map<string, Task>, byCombo: map<string, string>)

  function NewTask(id: string, contentID: string, platform: string): Task {
    Task(id, contentID, platform, DefaultRetryPolicy(), Pending, 0, NoMessage)
  }

  predicate TaskExists(t: TaskTable, contentID: string, platform: string) {
    Combo(contentID, platform) in t.byCombo
  }

  function CreateTask(t: TaskTable, contentID: string, platform: string, id: string): TaskTable {
    if TaskExists(t, contentID, platform) then t
    else TaskTable(t.tasks[id := NewTask(id, contentID, platform)], t.byCombo[Combo(contentID, platform) := id])
  }

  /** Both directions of the index: it names stored tasks of its pair, and every task is reached through it. */
  ghost predicate Indexed(t: TaskTable) {
    && (forall k :: k in t.byCombo ==> IndexEntryOk(t, k))
    && (forall id :: id in t.tasks ==> TaskReached(t, id))
  }

  predicate IndexEntryOk(t: TaskTable, k: string)
    requires k in t.byCombo
  {
    var id := t.byCombo[k];
    id in t.tasks && Combo(t.tasks[id].contentID, t.tasks[id].platform) == k
  }

  predicate TaskReached(t: TaskTable, id: string)
    requires id in t.tasks
  {
    var task := t.tasks[id];
    var combo := Combo(task.contentID, task.platform);
    task.id == id && combo in t.byCombo && t.byCombo[combo] == id
  }

  /** A dangling index entry would be a nil dereference; Indexed rules it out. */
  function LookUpTask(t: TaskTable, contentID: string, platform: string): Result<Task> {
    var combo := Combo(contentID, platform);
    if combo in t.byCombo && t.byCombo[combo] in t.tasks then Ok(t.tasks[t.byCombo[combo]]) else Err(NotFound)
  }

  /** A created task is pending without attempts or errors, with three retries, and is what a look-up of its pair finds
      from then on; a second one is not created. */
  lemma CreateThenLookUp(t: TaskTable, contentID: string, platform: string, id: string, other: string)
    requires !TaskExists(t, contentID, platform)
    ensures var t' := CreateTask(t, contentID, platform, id);
            && CreateTask(t', contentID, platform, other) == t'
            && (forall u :: u in t.tasks && u != id ==> u in t'.tasks && t'.tasks[u] == t.tasks[u])
            && LookUpTask(t', contentID, platform).Ok?
            && var task := LookUpTask(t', contentID, platform).value;
               && task.id == id && task.contentID == contentID && task.platform == platform
               && task.status == Pending && task.attemptCount == 0 && task.error == NoMessage
               && task.policy.maxRetries == 3
  {
    hide Combo;
  }

  function UpdateTaskError(t: TaskTable, id: string, status: PublishTaskStatus): Option<StoreError> {
    if id !in t.tasks then Some(NotFound)
    else if !t.tasks[id].status.CanTransitionTo(status) then Some(InvalidTransition)
    else None
  }

  function UpdateTask(t: TaskTable, id: string, status: PublishTaskStatus, error: Message): TaskTable {
    if UpdateTaskError(t, id, status) != None then t
    else t.(tasks := t.tasks[id := t.tasks[id].(status := status, error := error)])
  }

  /** A status write changes status and error of its task and nothing else, and only along the table. */
  lemma StatusWrites(t: TaskTable, id: string, status: PublishTaskStatus, error: Message)
    ensures var refused, t' := UpdateTaskError(t, id, status), UpdateTask(t, id, status, error);
            && t'.byCombo == t.byCombo && t'.tasks.Keys == t.tasks.Keys
            && (forall u :: u in t.tasks && u != id ==> t'.tasks[u] == t.tasks[u])
            && if id !in t.tasks then refused == Some(NotFound)
               else if !LegalTaskPath([t.tasks[id].status, status]) then
                 refused == Some(InvalidTransition) && t'.tasks[id] == t.tasks[id]
               else
                 var task := t.tasks[id];
                 refused == None && t'.tasks[id] ==
                   Task(task.id, task.contentID, task.platform, task.policy, status, task.attemptCount, error)
  {
    if id in t.tasks {
      var path := [t.tasks[id].status, status];
      assert path[0].CanTransitionTo(path[1]) ==> LegalTaskPath(path);
      assert LegalTaskPath(path) ==> path[1 - 1].CanTransitionTo(path[1]);
    }
  }

  function IncrementAttempts(t: TaskTable, id: string): TaskTable {
    if id !in t.tasks then t
    else t.(tasks := t.tasks[id := t.tasks[id].(attemptCount := t.tasks[id].attemptCount + 1)])
  }

  // ----- Attempts -----

  datatype Attempt = Attempt(
    id: string,
    taskID: string,
    number: int,
    status: PublishTaskStatus,
    completed: bool,
    error: Message)

  type AttemptTable = map<string, Attempt>

  function CreateAttempt(t: AttemptTable, taskID: string, number: int, id: string): AttemptTable {
    t[id := Attempt(id, taskID, number, Processing, false, NoMessage)]
  }

  function CompleteAttempt(t: AttemptTable, id: string, status: PublishTaskStatus, error: Message): AttemptTable {
    if id !in t then t
    else t[id := t[id].(status := status, completed := true, error := error)]
  }

  /** An order in which the attempts of a task can be listed: each of them once. */
  ghost predicate ListsAttempts(t: AttemptTable, taskID: string, order: seq<string>) {
    (forall id :: id in order <==> id in t && t[id].taskID == taskID) && Sorting.Distinct(order)
  }

  function AttemptsAt(t: AttemptTable, order: seq<string>): (r: seq<Attempt>)
    requires forall id :: id in order ==> id in t
    ensures |r| == |order| && forall i :: 0 <= i < |order| ==> r[i] == t[order[i]]
  {
    seq(|order|, i requires 0 <= i < |order| => t[order[i]])
  }

  // ----- Platform posts -----

  datatype PublishResult = PublishResult(postID: string, url: string, response: string)
  datatype Post = Post(id: string, taskID: string, platform: string, result: PublishResult)

  /** Keyed by task id. */
  type PostTable = map<string, Post>

  function CreatePost(t: PostTable, taskID: string, platform: string, result: PublishResult, id: string): PostTable {
    if taskID in t then t else t[taskID := Post(id, taskID, platform, result)]
  }

  // ----- Leases -----

  /** Who holds an idempotency key, and until when. */
  datatype Lease = Lease(entityID: string, expiresAt: int)
  type LeaseTable = map<string, Lease>

  /** A claim is refused only strictly before the expiry. */
  predicate ClaimGranted(t: LeaseTable, key: string, now: int) {
    !(key in t && now < t[key].expiresAt)
  }

  /** The clock is read once for the test and once more for the new expiry. */
  function Claim(t: LeaseTable, key: string, entityID: string, ttl: int, now: int, later: int): LeaseTable {
    if ClaimGranted(t, key, now) then t[key := Lease(entityID, later + ttl)] else t
  }

  /** A lease answers up to and including its expiry. */
  function GetLease(t: LeaseTable, key: string, now: int): Option<string> {
    if key !in t || now > t[key].expiresAt then None else Some(t[key].entityID)
  }

  function Cleanup(t: LeaseTable, now: int): LeaseTable {
    map k | k in t && !(now > t[k].expiresAt) :: t[k]
  }

  const TASK_SCOPE: string := "task"
  const TASK_TTL: int := 24 * 60 * 60 * SECOND

  /** The idempotency key that protects the task of a pair. */
  function TaskKey(combo: string): string {
    ScopedKey(TASK_SCOPE, combo)
  }
}
