/** The publish service of internal/publish/service.go over its in-memory stores. */
module PublishService {
  import opened Contracts
  import opened Keys
  import opened Policy
  import opened PublishStores
  import opened Retry
  import opened PublishRun
  import PT = PublishTables

  /** A platform adapter: arbitrary answers, and a count of the calls it received. */
  class Adapter {
    const script: Script
    var talk: Talk

    constructor (script: Script)
      ensures this.script == script && talk == Talk(0, 0, 0)
    {
      this.script := script;
      talk := Talk(0, 0, 0);
    }

    method Validate() returns (error: Option<string>)
      modifies this
      ensures error == script.validate(old(talk.validated))
      ensures talk == old(talk).(validated := old(talk.validated) + 1)
    {
      error := script.validate(talk.validated);
      talk := talk.(validated := talk.validated + 1);
    }

    method UploadAssets() returns (error: Option<string>)
      modifies this
      ensures error == script.upload(old(talk.uploaded))
      ensures talk == old(talk).(uploaded := old(talk.uploaded) + 1)
    {
      error := script.upload(talk.uploaded);
      talk := talk.(uploaded := talk.uploaded + 1);
    }

    method Publish() returns (reply: PublishReply)
      modifies this
      ensures reply == script.publish(old(talk.published))
      ensures talk == old(talk).(published := old(talk.published) + 1)
    {
      reply := script.publish(talk.published);
      talk := talk.(published := talk.published + 1);
    }
  }

  class Service {
    const content: MemoryContentStore
    const tasks: MemoryPublishTaskStore
    const attempts: MemoryPublishAttemptStore
    const posts: MemoryPlatformPostStore
    const idempotency: MemoryIdempotencyStore
    const platforms: map<string, Adapter>
    const ids: IDSource
    const clock: Clock

    constructor (content: MemoryContentStore, tasks: MemoryPublishTaskStore, attempts: MemoryPublishAttemptStore,
                 posts: MemoryPlatformPostStore, idempotency: MemoryIdempotencyStore,
                 platforms: map<string, Adapter>, ids: IDSource, clock: Clock)
      ensures this.content == content && this.tasks == tasks && this.attempts == attempts && this.posts == posts
      ensures this.idempotency == idempotency && this.platforms == platforms && this.ids == ids && this.clock == clock
    {
      this.content, this.tasks, this.attempts, this.posts := content, tasks, attempts, posts;
      this.idempotency, this.platforms, this.ids, this.clock := idempotency, platforms, ids, clock;
    }

    /** The handle is the stored task. */
    ghost predicate Holds(task: PublishTask)
      reads tasks, tasks.tasks.Values
    {
      tasks.Valid() && task.id in tasks.tasks && tasks.tasks[task.id] == task && task.id in tasks.rows
    }

    /** What the store holds for the task. */
    ghost function Row(task: PublishTask): PT.Task
      requires Holds(task)
      reads tasks, tasks.tasks.Values
    {
      tasks.rows[task.id]
    }

    /** Write a status to the task; the store drops it if the transition is not allowed. */
    method WriteStatus(task: PublishTask, status: PublishTaskStatus, error: PT.Message)
      requires Holds(task)
      modifies tasks`rows, task
      ensures Holds(task)
      ensures tasks.Table() == WithRow(old(tasks.Table()), Wrote(old(Row(task)), status, error), task.id)
      ensures task.history == old(task.history) + Entered(old(Row(task)), status)
    {
      hide MemoryPublishTaskStore.Valid, PT.UpdateTask, PT.UpdateTaskError, Wrote, WithRow, Entered;
      UpdateWritesRow(tasks.Table(), task.id, status, error);
      var _ := tasks.UpdateTaskStatus(task.id, status, error);
    }

    method CountAttempt(task: PublishTask)
      requires Holds(task)
      modifies tasks`rows, task
      ensures Holds(task)
      ensures tasks.Table() == WithRow(old(tasks.Table()), Counted(old(Row(task))), task.id)
      ensures task.history == old(task.history)
    {
      hide MemoryPublishTaskStore.Valid;
      var _ := tasks.IncrementAttemptCount(task.id);
    }

    /** Count the attempt, record it, and mark the task as processing. */
    method BeginAttempt(task: PublishTask, number: int) returns (attemptID: string)
      requires Holds(task)
      modifies tasks`rows, task, attempts, ids
      ensures Holds(task)
      ensures tasks.Table() == WithRow(old(tasks.Table()), Begun(old(Row(task))), task.id)
      ensures task.history == old(task.history) + Entered(old(Row(task)), Processing)
      ensures attemptID == ids.stream(old(ids.next)) && ids.next == old(ids.next) + 1
      ensures attempts.attempts == PT.CreateAttempt(old(attempts.attempts), task.id, number, attemptID)
    {
      hide MemoryPublishTaskStore.Valid, PT.CreateAttempt, Wrote, Begun, Counted, WithRow, Entered;
      BeginningRow(tasks.Table(), Row(task), task.id);
      CountAttempt(task);
      var rec := attempts.CreateAttempt(task.id, number, ids);
      WriteStatus(task, Processing, PT.NoMessage);
      return rec.id;
    }

    /** One conversation with the adapter, up to the first refusal. */
    method Converse(adapter: Adapter) returns (e: AttemptEnd)
      modifies adapter
      ensures e == EndOf(adapter.script, old(adapter.talk), 0)
      ensures adapter.talk == TalkAfter(adapter.script, old(adapter.talk), 1)
    {
      var invalid := adapter.Validate();
      if invalid.Some? {
        return Invalid(invalid.value);
      }
      var notUploaded := adapter.UploadAssets();
      if notUploaded.Some? {
        return NotUploaded(notUploaded.value);
      }
      var reply := adapter.Publish();
      match reply {
        case Accepted(result) => return Posted(result);
        case PlatformError(text, retryable) => return Refused(text, retryable);
        case OtherError(text) => return Refused(text, false);
      }
    }

    /** The body of the retry loop: one attempt and its bookkeeping. None asks for another attempt. */
    method RunAttempt(task: PublishTask, adapter: Adapter, attempt: nat, maxRetries: int)
      returns (r: Option<RetryResult>)
      requires Holds(task)
      modifies tasks`rows, task, attempts, posts, ids, adapter
      ensures Holds(task)
      ensures var e := EndOf(adapter.script, old(adapter.talk), 0);
              var goesOn := GoesOn(e, attempt, maxRetries);
              var id := ids.stream(old(ids.next));
              && r == (if goesOn then None else Some(Verdict(e, maxRetries)))
              && adapter.talk == TalkAfter(adapter.script, old(adapter.talk), 1)
              && tasks.Table() == WithRow(old(tasks.Table()), Ended(old(Row(task)), e, goesOn, maxRetries), task.id)
              && task.history == old(task.history) + PathOf(old(Row(task)), e, goesOn, maxRetries)
              && attempts.attempts == old(attempts.attempts)[id := Record(id, task.id, e, attempt)]
              && posts.records
                 == PostsWith(old(posts.records), task.id, task.platform, e, ids.stream(old(ids.next) + 1))
              && ids.next == old(ids.next) + 1 + PostDraws(old(posts.records), task.id, e)
    {
      hide MemoryPublishTaskStore.Valid, PT.CreateAttempt, PT.CompleteAttempt, Wrote, Begun, WithRow, EndOf, Record,
           TalkAfter, Entered, PathOf;
      ghost var row, table, records, history := Row(task), tasks.Table(), attempts.attempts, task.history;
      var attemptID := BeginAttempt(task, attempt + 1);
      BegunRow(table, row, task.id);
      var e := Converse(adapter);
      ClosedRecord(records, task.id, attemptID, e, attempt);
      PathInTwoSteps(history, row, e, GoesOn(e, attempt, maxRetries), maxRetries);
      match e {
        case Invalid(cause) =>
          WriteStatus(task, PublishTaskStatus.Failed, PT.ValidationFailed(cause));
          var _ := attempts.CompleteAttempt(attemptID, PublishTaskStatus.Failed, PT.ValidationFailed(cause));
          return Some(RetryResult(None, PublishTaskStatus.Failed, PT.ValidationFailed(cause)));
        case NotUploaded(cause) =>
          WriteStatus(task, PublishTaskStatus.Failed, PT.UploadFailed(cause));
          var _ := attempts.CompleteAttempt(attemptID, PublishTaskStatus.Failed, PT.UploadFailed(cause));
          return Some(RetryResult(None, PublishTaskStatus.Failed, PT.UploadFailed(cause)));
        case Posted(result) =>
          WriteStatus(task, Succeeded, PT.NoMessage);
          var _ := attempts.CompleteAttempt(attemptID, Succeeded, PT.NoMessage);
          var _ := posts.CreatePlatformPost(task.id, task.platform, result, ids);
          return Some(RetryResult(Some(result), Succeeded, PT.NoMessage));
        case Refused(cause, retryable) =>
          var _ := attempts.CompleteAttempt(attemptID, PublishTaskStatus.Failed, PT.Cause(cause));
          if !retryable {
            WriteStatus(task, PublishTaskStatus.Failed, PT.PermanentFailure(cause));
            return Some(RetryResult(None, PublishTaskStatus.Failed, PT.PermanentFailure(cause)));
          }
          if attempt >= maxRetries {
            WriteStatus(task, Dead, PT.RetriesExhausted(maxRetries, cause));
            return Some(RetryResult(None, Dead, PT.RetriesExhausted(maxRetries, cause)));
          }
          WriteStatus(task, Retrying, PT.Cause(cause));
          return None;
      }
    }

    /** Attempts until one is final: the stores, the adapter and the answer are the ones module Retry computes. */
    method ExecuteWithRetry(task: PublishTask, adapter: Adapter) returns (r: RetryResult)
      requires Holds(task)
      modifies tasks`rows, task, attempts, posts, ids, adapter
      ensures Holds(task)
      ensures var max := task.policy.maxRetries;
              var from := old(adapter.talk);
              var n := AttemptCount(adapter.script, from, max);
              && r == Told(adapter.script, from, max)
              && adapter.talk == TalkAfter(adapter.script, from, n)
              && tasks.Table()
                 == WithRow(old(tasks.Table()), RowAfter(old(Row(task)), adapter.script, from, max, n), task.id)
              && task.history == old(task.history) + PathAfter(old(Row(task)), adapter.script, from, max, n)
              && attempts.attempts
                 == RecordsAfter(old(attempts.attempts), task.id, ids.stream, old(ids.next), adapter.script, from, n)
              && posts.records
                 == PostsAfter(old(posts.records), task.id, task.platform, ids.stream, old(ids.next), adapter.script,
                               from, n)
              && ids.next == DrawsAfter(old(posts.records), task.id, old(ids.next), adapter.script, from, n)
    {
      hide MemoryPublishTaskStore.Valid, WithRow, Ended, EndOf, Record, PathOf, PostsWith, PostDraws;
      var maxRetries := task.policy.maxRetries;
      ghost var from, first, script := adapter.talk, ids.next, adapter.script;
      ghost var row, table, history := Row(task), tasks.Table(), task.history;
      var attempt := 0;
      LoopStarts(table, row, task.id, script, from, maxRetries);
      while attempt <= maxRetries
        invariant Holds(task)
        invariant attempt <= maxRetries ==>
                  AttemptCount(script, from, maxRetries) == Attempts(script, from, maxRetries, attempt)
        invariant attempt > maxRetries ==> AttemptCount(script, from, maxRetries) == 0 == attempt
        invariant tasks.Table() == WithRow(table, RowAt(row, script, from, maxRetries, attempt), task.id)
        invariant task.history == history + PathAt(row, script, from, maxRetries, attempt)
        invariant attempts.attempts
                  == RecordsAfter(old(attempts.attempts), task.id, ids.stream, first, script, from, attempt)
        invariant posts.records == old(posts.records)
        invariant ids.next == first + attempt
        invariant adapter.talk == Talk(from.validated + attempt, from.uploaded + attempt, from.published + attempt)
      {
        LoopTurns(script, from, maxRetries, attempt);
        LoopRows(table, row, task.id, script, from, maxRetries, attempt, history);
        LoopStores(old(attempts.attempts), posts.records, task.id, task.platform, ids.stream, first, script, from,
                   maxRetries, attempt);
        var done := RunAttempt(task, adapter, attempt, maxRetries);
        if done.Some? {
          return done.value;
        }
        attempt := attempt + 1;
      }
      return RetryResult(None, PublishTaskStatus.Failed, PT.LoopExited);
    }

    // ----- One call -----

    /** Everything a call can change, as a value. */
    ghost function View(): World
      reads content, tasks, attempts, posts, idempotency, ids, clock, platforms.Values
    {
      World(content.entries, tasks.Table(), attempts.attempts, posts.records, idempotency.entries, ids.next, clock.next,
            Talks())
    }

    ghost function Talks(): map<string, Talk>
      reads platforms.Values
    {
      map p | p in platforms :: platforms[p].talk
    }

    ghost function Env(): Environment {
      Environment(ids.stream, clock.readings, map p | p in platforms :: platforms[p].script)
    }

    /** Each platform has its own adapter, and every id still to come is new. */
    ghost predicate Ready()
      reads tasks, tasks.tasks.Values, ids
    {
      && tasks.Valid() && !idempotency.keyFirst
      && DistinctIDs(ids.stream) && Unused(ids.stream, ids.next, tasks.tasks.Keys)
      && (forall p, q :: p in platforms && q in platforms && platforms[p] == platforms[q] ==> p == q)
    }

    method ClaimKey(combo: string) returns (claimed: bool)
      requires !idempotency.keyFirst
      modifies idempotency, clock
      ensures claimed == Granted(Env(), old(View()), combo)
      ensures View() == Claimed(Env(), old(View()), combo)
    {
      claimed := idempotency.Claim(PT.TASK_SCOPE, combo, combo, PT.TASK_TTL, clock);
    }

    /** The entry for the task of the pair, if there is one. */
    method ReturnExisting(contentID: string, platformName: string, otherwise: PT.Message) returns (ts: TaskStatus)
      requires tasks.Valid()
      ensures ts == Existing(tasks.Table(), contentID, platformName, otherwise)
    {
      var existing := tasks.GetTaskByContentPlatform(contentID, platformName);
      match existing {
        case Ok(task) => return TaskStatus(task.id, platformName, task.status, "", "", task.error);
        case Err(_) => return Unexplained(platformName, otherwise);
      }
    }

    /** Execute a task that was just created. */
    method ExecuteNew(task: PublishTask, platformName: string) returns (ts: TaskStatus)
      requires Ready() && Holds(task) && platformName in platforms
      requires Row(task).policy == task.policy == DefaultRetryPolicy() && task.platform == platformName
      modifies tasks`rows, task, attempts, posts, ids, platforms[platformName]
      ensures Ready()
      ensures View() == Finished(Env(), old(View()), task.id, old(Row(task)), platformName)
      ensures ts == Executed(task.id, platformName, RanTold(Env(), old(View()), platformName))
    {
      hide MemoryPublishTaskStore.Valid, DistinctIDs, WithRow, RowAfter, RecordsAfter, PostsAfter, TalkAfter, PathAfter,
           AttemptCount;
      var adapter := platforms[platformName];
      var r := ExecuteWithRetry(task, adapter);
      assert Talks() == old(Talks())[platformName := adapter.talk];
      match r.result {
        case Some(result) => ts := TaskStatus(task.id, platformName, r.status, result.postID, result.url, PT.NoMessage);
        case None => ts := TaskStatus(task.id, platformName, r.status, "", "", r.error);
      }
    }

    /** A new task for the pair, unless there is one. */
    method CreateTask(contentID: string, platformName: string) returns (created: Result<PublishTask>)
      requires Ready()
      modifies tasks, ids
      ensures Ready() && tasks.Valid()
      ensures created.Err? <==> PT.TaskExists(old(tasks.Table()), contentID, platformName)
      ensures created.Err? ==> View() == old(View())
      ensures created.Ok? ==>
                && Holds(created.value) && created.value.platform == platformName && fresh(created.value)
                && created.value.id == Env().ids(old(View()).drawn)
                && Row(created.value) == PT.NewTask(created.value.id, contentID, platformName)
                && created.value.policy == DefaultRetryPolicy()
                && View() == Created(Env(), old(View()), contentID, platformName)
    {
      hide PT.CreateTask, PT.NewTask, PublishTask.HistoryOk, PublishTask.Holds;
      CreatedRow(tasks.Table(), contentID, platformName, ids.stream(ids.next));
      created := tasks.CreateTask(contentID, platformName, ids);
    }

    /** The claim was granted: create the task and execute it. */
    method CreateAndExecute(contentID: string, platformName: string) returns (ts: TaskStatus)
      requires Ready() && tasks.Valid() && platformName in platforms
      modifies tasks, attempts, posts, ids, platforms[platformName]
      ensures Ready()
      ensures var w := old(View());
              && View() == (if PT.TaskExists(w.table, contentID, platformName) then w
                            else Ran(Env(), w, contentID, platformName))
              && ts == (if PT.TaskExists(w.table, contentID, platformName)
                        then Existing(w.table, contentID, platformName, PT.CreateFailed)
                        else Executed(Env().ids(w.drawn), platformName, RanTold(Env(), w, platformName)))
    {
      hide Finished, Executed, Existing, Created, Told, Ready, MemoryPublishTaskStore.Valid, Holds;
      var created := CreateTask(contentID, platformName);
      if created.Err? {
        ts := ReturnExisting(contentID, platformName, PT.CreateFailed);
        return;
      }
      ts := ExecuteNew(created.value, platformName);
    }

    /** One platform: registry, claim, task, retry loop. */
    method ExecutePlatformTask(contentID: string, platformName: string) returns (ts: TaskStatus)
      requires Ready()
      modifies tasks, attempts, posts, idempotency, ids, clock, platforms.Values
      ensures Ready()
      ensures View() == PlatformWorld(Env(), old(View()), contentID, platformName)
      ensures ts == PlatformEntry(Env(), old(View()), contentID, platformName)
    {
      hide Granted, Finished, Executed, Existing, Created, Ran;
      if platformName !in platforms {
        return Unexplained(platformName, PT.PlatformNotFound(platformName));
      }
      var claimed := ClaimKey(Combo(contentID, platformName));
      if !claimed {
        ts := ReturnExisting(contentID, platformName, PT.LookupFailed);
        return;
      }
      ts := CreateAndExecute(contentID, platformName);
    }

    /** Re-read the content, compare its status, and write the new one without a version. */
    method TransitionContent(contentID: string, from: ContentStatus, to: ContentStatus) returns (done: bool)
      modifies content
      ensures done == CanTransition(old(content.entries), contentID, from, to)
      ensures done ==> old(content.entries)[contentID].content.status == from && from != to
      ensures content.entries == Transitioned(old(content.entries), contentID, from, to)
    {
      var r := content.GetContent(contentID);
      if r.Err? || r.value.status != from {
        return false;
      }
      var error := content.UpdateContent(contentID, to, 0);
      return error == None;
    }

    /** Count the succeeded and the failed tasks, and decide. */
    static method AggregateStatus(tasks: seq<TaskStatus>) returns (r: ContentStatus)
      ensures r == PT.AggregateStatus(Statuses(tasks))
    {
      if |tasks| == 0 {
        return ContentStatus.Failed;
      }
      var succeeded, failed := 0, 0;
      for i := 0 to |tasks|
        invariant 0 <= succeeded <= i
        invariant succeeded == i <==> forall j :: 0 <= j < i ==> Statuses(tasks)[j] == Succeeded
        invariant succeeded > 0 <==> exists j :: 0 <= j < i && Statuses(tasks)[j] == Succeeded
      {
        assert Statuses(tasks)[i] == tasks[i].status;
        match tasks[i].status {
          case Succeeded => succeeded := succeeded + 1;
          case Failed | Dead => failed := failed + 1;
          case _ =>
        }
      }
      if succeeded == |tasks| {
        return Published;
      }
      if succeeded > 0 {
        return PartiallyPublished;
      }
      return ContentStatus.Failed;
    }

    method RunPlatforms(contentID: string, platformNames: seq<string>) returns (taskStatuses: seq<TaskStatus>)
      requires Ready()
      modifies tasks, attempts, posts, idempotency, ids, clock, platforms.Values
      ensures Ready()
      ensures View() == PlatformsWorld(Env(), old(View()), contentID, platformNames)
      ensures taskStatuses == PlatformsEntries(Env(), old(View()), contentID, platformNames)
    {
      hide MemoryPublishTaskStore.Valid, DistinctIDs, PlatformWorld, PlatformEntry;
      taskStatuses := [];
      ghost var w := View();
      for i := 0 to |platformNames|
        invariant Ready()
        invariant View() == PlatformsWorld(Env(), w, contentID, platformNames[..i])
        invariant taskStatuses == PlatformsEntries(Env(), w, contentID, platformNames[..i])
      {
        assert platformNames[..i + 1][..i] == platformNames[..i];
        var ts := ExecutePlatformTask(contentID, platformNames[i]);
        taskStatuses := taskStatuses + [ts];
      }
      assert platformNames[..|platformNames|] == platformNames;
    }

    /** The whole call. */
    method Publish(contentID: string, platformNames: seq<string>) returns (answer: Answer)
      requires Ready()
      modifies content, tasks, attempts, posts, idempotency, ids, clock, platforms.Values
      ensures Ready()
      ensures View() == PublishedWorld(Env(), old(View()), contentID, platformNames)
      ensures answer == PublishedAnswer(Env(), old(View()), contentID, platformNames)
    {
      hide MemoryPublishTaskStore.Valid, DistinctIDs, Ready, Talks, PlatformsWorld, PlatformsEntries,
           PT.AggregateStatus, PT.UpdateContent;
      var r := content.GetContent(contentID);
      if r.Err? {
        return Declined(ContentNotFound);
      }
      if !r.value.status.CanTransitionTo(Publishing) {
        return Declined(NotPublishable);
      }
      var locked := TransitionContent(contentID, r.value.status, Publishing);
      if !locked {
        return Declined(NotLocked);
      }
      var taskStatuses := RunPlatforms(contentID, platformNames);
      var finalStatus := AggregateStatus(taskStatuses);
      var _ := TransitionContent(contentID, Publishing, finalStatus);
      return Answered(finalStatus, taskStatuses);
    }
  }
}
