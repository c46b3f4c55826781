/** Any number of Publish calls, interleaved at the store operations.

    Every store method of internal/publish/storage.go runs under its store's mutex, so it is one atomic step
    here; so is each call to a platform adapter. A step names the call that moves, the clock readings it
    takes, the id it draws and the adapter's reply, all of them arbitrary. Other actors create contents, move
    contents anywhere the content table allows except into or out of publishing, claim keys of the other
    idempotency scopes, and clean up leases. A step that cannot be taken changes nothing, so a run is any
    sequence of steps at all. */
module Protocol {
  import opened Contracts
  import opened Keys
  import opened PublishTables

  // ----- The state -----

  /** The next store operation or adapter call of executeWithRetry. */
  datatype RunAt =
    | Count                                           // IncrementAttemptCount
    | OpenAttempt                                     // CreateAttempt
    | MarkProcessing
    | Validate
    | Upload
    | Publish
    | MarkInvalid(error: Message)                     // validation or upload failed
    | CloseInvalid(error: Message)
    | MarkSucceeded(result: PublishResult)
    | CloseSucceeded(result: PublishResult)
    | RecordPost(result: PublishResult)
    | CloseRejected(cause: string, retryable: bool)   // the adapter's Publish failed
    | MarkFailed(error: Message)
    | MarkDead(error: Message)
    | MarkRetrying(cause: string)

  /** A retry loop in progress; attempts are counted from 0 as in the source's loop variable. */
  datatype Run = Run(taskID: string, attempt: nat, attemptID: string, at: RunAt)

  /** Where a Publish call stands. */
  datatype At =
    | Fetch
    | Recheck(seen: ContentStatus)
    | TakeLock
    | NextPlatform
    | ClaimKey
    | MakeTask
    | LookUp
    | Running(run: Run)
    | FinalCheck
    | FinalWrite
    | Returned(ok: bool)

  /** How the entry for one platform came about. */
  datatype Origin = NotRegistered | Executed | Existing | Unexplained

  /** What a call reports for one platform. */
  datatype Report = Report(taskID: string, status: PublishTaskStatus, error: Message, origin: Origin)

  datatype Call = Call(contentID: string, platforms: seq<string>, reports: seq<Report>, at: At)

  /** What happened at a platform adapter, per content and platform. */
  datatype Event =
    | Entered(contentID: string, platform: string)   // executeWithRetry was entered
    | Asked(contentID: string, platform: string)     // the adapter's Publish was called
    | Accepted(contentID: string, platform: string)  // and it succeeded

  /** The task, attempt and post stores, and history that no step reads: the events, which call created each
      task, and the attempts opened for each task in order. */
  datatype Work = Work(
    table: TaskTable,
    attempts: AttemptTable,
    posts: PostTable,
    events: multiset<Event>,
    createdBy: map<string, nat>,
    attemptIDs: map<string, seq<string>>)

  /** Everything shared, the running calls, and two more histories: which call last took each content's lock
      and which call last claimed each task key. */
  datatype State = State(
    registered: set<string>,
    now: int,
    contents: ContentTable,
    leases: LeaseTable,
    work: Work,
    calls: map<nat, Call>,
    lockedBy: map<string, nat>,
    claimedBy: map<string, nat>)

  /** What an adapter answers. */
  datatype Reply = Success(result: PublishResult) | Rejected(cause: string, retryable: bool)

  datatype Step =
    | Begin(pid: nat, contentID: string, platforms: seq<string>)
    | Move(pid: nat, now: int, later: int, id: string, reply: Reply)
    | CreateContent(content: Content)
    | MoveContent(id: string, status: ContentStatus, version: int)
    | ClaimOther(scope: string, key: string, entityID: string, ttl: int, now: int, later: int)
    | CleanUp(now: int)

  // ----- executeWithRetry -----

  /** After a step of the retry loop: go on, or leave it with an entry. */
  datatype Outcome = Continue(work: Work, run: Run) | Done(work: Work, report: Report)

  function WriteTask(w: Work, taskID: string, status: PublishTaskStatus, error: Message): Work {
    w.(table := UpdateTask(w.table, taskID, status, error))
  }

  function CloseAttempt(w: Work, attemptID: string, status: PublishTaskStatus, error: Message): Work {
    w.(attempts := CompleteAttempt(w.attempts, attemptID, status, error))
  }

  function Happened(w: Work, e: Event): Work {
    w.(events := w.events + multiset{e})
  }

  /** The attempts opened so far for a task. */
  function Opened(w: Work, taskID: string): seq<string> {
    if taskID in w.attemptIDs then w.attemptIDs[taskID] else []
  }

  function OpenAttemptFor(w: Work, taskID: string, number: int, id: string): Work {
    w.(attempts := CreateAttempt(w.attempts, taskID, number, id),
       attemptIDs := w.attemptIDs[taskID := Opened(w, taskID) + [id]])
  }

  function MaxRetries(w: Work, taskID: string): int {
    if taskID in w.table.tasks then w.table.tasks[taskID].policy.maxRetries else 0
  }

  /** The start of an attempt, up to the adapter's own checks. */
  function PrepareStep(w: Work, run: Run, id: string, reply: Reply): Outcome {
    var t := run.taskID;
    match run.at
    case Count => Continue(w.(table := IncrementAttempts(w.table, t)), run.(at := OpenAttempt))
    case OpenAttempt =>
      Continue(OpenAttemptFor(w, t, run.attempt + 1, id), run.(attemptID := id, at := MarkProcessing))
    case MarkProcessing => Continue(WriteTask(w, t, Processing, NoMessage), run.(at := Validate))
    case Validate =>
      Continue(w, run.(at := if reply.Success? then Upload else MarkInvalid(ValidationFailed(reply.cause))))
    case Upload =>
      Continue(w, run.(at := if reply.Success? then RunAt.Publish else MarkInvalid(UploadFailed(reply.cause))))
    case MarkInvalid(error) =>
      Continue(WriteTask(w, t, PublishTaskStatus.Failed, error), run.(at := CloseInvalid(error)))
    case CloseInvalid(error) =>
      Done(CloseAttempt(w, run.attemptID, PublishTaskStatus.Failed, error),
           Report(t, PublishTaskStatus.Failed, error, Executed))
    case _ => Continue(w, run)
  }

  function PublishStep(w: Work, contentID: string, platform: string, run: Run, reply: Reply): Outcome {
    var asked := Happened(w, Asked(contentID, platform));
    if reply.Success?
    then Continue(Happened(asked, Accepted(contentID, platform)), run.(at := MarkSucceeded(reply.result)))
    else Continue(asked, run.(at := CloseRejected(reply.cause, reply.retryable)))
  }

  /** The bookkeeping after the adapter accepted. */
  function SucceedStep(w: Work, platform: string, run: Run, id: string): Outcome {
    var t := run.taskID;
    match run.at
    case MarkSucceeded(result) => Continue(WriteTask(w, t, Succeeded, NoMessage), run.(at := CloseSucceeded(result)))
    case CloseSucceeded(result) =>
      Continue(CloseAttempt(w, run.attemptID, Succeeded, NoMessage), run.(at := RecordPost(result)))
    case RecordPost(result) =>
      Done(w.(posts := CreatePost(w.posts, t, platform, result, id)), Report(t, Succeeded, NoMessage, Executed))
    case _ => Continue(w, run)
  }

  /** The bookkeeping after the adapter refused. */
  function FailStep(w: Work, run: Run): Outcome {
    var t := run.taskID;
    match run.at
    case CloseRejected(cause, retryable) =>
      Continue(CloseAttempt(w, run.attemptID, PublishTaskStatus.Failed, Cause(cause)),
               run.(at := if !retryable then MarkFailed(PermanentFailure(cause))
                          else if run.attempt >= MaxRetries(w, t)
                          then MarkDead(RetriesExhausted(MaxRetries(w, t), cause))
                          else MarkRetrying(cause)))
    case MarkFailed(error) =>
      Done(WriteTask(w, t, PublishTaskStatus.Failed, error), Report(t, PublishTaskStatus.Failed, error, Executed))
    case MarkDead(error) => Done(WriteTask(w, t, Dead, error), Report(t, Dead, error, Executed))
    case MarkRetrying(cause) =>
      Continue(WriteTask(w, t, Retrying, Cause(cause)), run.(attempt := run.attempt + 1, at := Count))
    case _ => Continue(w, run)
  }

  /** One store operation or adapter call of executeWithRetry. */
  function RunStep(w: Work, contentID: string, platform: string, run: Run, id: string, reply: Reply): Outcome {
    match run.at
    case Publish => PublishStep(w, contentID, platform, run, reply)
    case Count | OpenAttempt | MarkProcessing | Validate | Upload | MarkInvalid(_) | CloseInvalid(_) =>
      PrepareStep(w, run, id, reply)
    case MarkSucceeded(_) | CloseSucceeded(_) | RecordPost(_) => SucceedStep(w, platform, run, id)
    case _ => FailStep(w, run)
  }

  // ----- The other steps of a call -----

  /** The platform a call is working on. */
  function Platform(c: Call): string {
    if |c.reports| < |c.platforms| then c.platforms[|c.reports|] else ""
  }

  function ComboOf(c: Call): string {
    Combo(c.contentID, Platform(c))
  }

  /** Append the entry of the current platform and go on to the next one. */
  function Reported(c: Call, r: Report): Call {
    c.(reports := c.reports + [r], at := NextPlatform)
  }

  function FetchStep(contents: ContentTable, c: Call): Call {
    match GetContent(contents, c.contentID)
    case Err(_) => c.(at := Returned(false))
    case Ok(content) =>
      if content.status.CanTransitionTo(Publishing) then c.(at := Recheck(content.status))
      else c.(at := Returned(false))
  }

  function RecheckStep(contents: ContentTable, c: Call, seen: ContentStatus): Call {
    match GetContent(contents, c.contentID)
    case Err(_) => c.(at := Returned(false))
    case Ok(content) => if content.status == seen then c.(at := TakeLock) else c.(at := Returned(false))
  }

  predicate LockGranted(contents: ContentTable, c: Call) {
    UpdateContentError(contents, c.contentID, Publishing, 0) == None
  }

  function NextPlatformStep(registered: set<string>, c: Call): Call {
    if |c.reports| >= |c.platforms| then c.(at := FinalCheck)
    else if Platform(c) !in registered
    then Reported(c, Report("", PublishTaskStatus.Failed, PlatformNotFound(Platform(c)), NotRegistered))
    else c.(at := ClaimKey)
  }

  function LookUpStep(table: TaskTable, c: Call): Call {
    match LookUpTask(table, c.contentID, Platform(c))
    case Ok(task) => Reported(c, Report(task.id, task.status, task.error, Existing))
    case Err(_) => Reported(c, Report("", PublishTaskStatus.Failed, LookupFailed, Unexplained))
  }

  /** The new task of a call that found none, and the entry into executeWithRetry. */
  function CreateStep(w: Work, pid: nat, c: Call, id: string): Work {
    w.(table := CreateTask(w.table, c.contentID, Platform(c), id),
       events := w.events + multiset{Entered(c.contentID, Platform(c))},
       createdBy := w.createdBy[id := pid],
       attemptIDs := w.attemptIDs[id := []])
  }

  /** The content status that the entries add up to. */
  function Aggregate(reports: seq<Report>): ContentStatus {
    AggregateStatus(seq(|reports|, i requires 0 <= i < |reports| => reports[i].status))
  }

  function FinalCheckStep(contents: ContentTable, c: Call): Call {
    match GetContent(contents, c.contentID)
    case Err(_) => c.(at := Returned(true))
    case Ok(content) => if content.status == Publishing then c.(at := FinalWrite) else c.(at := Returned(true))
  }

  function Put(s: State, pid: nat, c: Call): State {
    s.(calls := s.calls[pid := c])
  }

  function TakeLockStep(s: State, pid: nat, c: Call): State {
    if !LockGranted(s.contents, c) then Put(s, pid, c.(at := Returned(false)))
    else Put(s.(contents := UpdateContent(s.contents, c.contentID, Publishing, 0),
                lockedBy := s.lockedBy[c.contentID := pid]),
             pid, c.(at := NextPlatform))
  }

  function ClaimStep(s: State, pid: nat, c: Call, now: int, later: int): State {
    if !ClaimGranted(s.leases, TaskKey(ComboOf(c)), now) then Put(s, pid, c.(at := LookUp))
    else Put(s.(leases := Claim(s.leases, TaskKey(ComboOf(c)), ComboOf(c), TASK_TTL, now, later),
                claimedBy := s.claimedBy[ComboOf(c) := pid]),
             pid, c.(at := MakeTask))
  }

  function MakeTaskStep(s: State, pid: nat, c: Call, id: string): State {
    if TaskExists(s.work.table, c.contentID, Platform(c)) then Put(s, pid, c.(at := LookUp))
    else Put(s.(work := CreateStep(s.work, pid, c, id)), pid, c.(at := Running(Run(id, 0, "", Count))))
  }

  function RunningStep(s: State, pid: nat, c: Call, o: Outcome): State {
    match o
    case Continue(work, run') => Put(s.(work := work), pid, c.(at := Running(run')))
    case Done(work, report) => Put(s.(work := work), pid, Reported(c, report))
  }

  function FinalWriteStep(s: State, pid: nat, c: Call): State {
    Put(s.(contents := UpdateContent(s.contents, c.contentID, Aggregate(c.reports), 0)), pid, c.(at := Returned(true)))
  }

  function MoveStep(s: State, pid: nat, now: int, later: int, id: string, reply: Reply): State
    requires pid in s.calls
  {
    var c := s.calls[pid];
    match c.at
    case Fetch => Put(s, pid, FetchStep(s.contents, c))
    case Recheck(seen) => Put(s, pid, RecheckStep(s.contents, c, seen))
    case TakeLock => TakeLockStep(s, pid, c)
    case NextPlatform => Put(s, pid, NextPlatformStep(s.registered, c))
    case ClaimKey => ClaimStep(s, pid, c, now, later)
    case MakeTask => MakeTaskStep(s, pid, c, id)
    case LookUp => Put(s, pid, LookUpStep(s.work.table, c))
    case Running(run) => RunningStep(s, pid, c, RunStep(s.work, c.contentID, Platform(c), run, id, reply))
    case FinalCheck => Put(s, pid, FinalCheckStep(s.contents, c))
    case FinalWrite => FinalWriteStep(s, pid, c)
    case Returned(_) => s
  }

  // ----- Runs -----

  /** Drawn ids are new, new contents have colon-free ids, clock readings never go back, and other actors
      neither start nor end a publishing phase. */
  predicate Enabled(s: State, step: Step) {
    match step
    case Begin(pid, _, _) => pid !in s.calls
    case Move(pid, now, later, id, _) =>
      pid in s.calls && s.now <= now <= later && id !in s.work.table.tasks && id !in s.work.attempts
    case CreateContent(content) => content.id !in s.contents && ColonFree(content.id) && content.status == Draft
    case MoveContent(id, status, _) =>
      id in s.contents && s.contents[id].content.status != Publishing && status != Publishing
    case ClaimOther(scope, _, _, _, now, later) => ColonFree(scope) && scope != TASK_SCOPE && s.now <= now <= later
    case CleanUp(now) => s.now <= now
  }

  function Next(s: State, step: Step): State {
    if !Enabled(s, step) then s
    else match step
      case Begin(pid, contentID, platforms) => Put(s, pid, Call(contentID, platforms, [], Fetch))
      case Move(pid, now, later, id, reply) => MoveStep(s.(now := later), pid, now, later, id, reply)
      case CreateContent(content) => s.(contents := s.contents[content.id := ContentRecord(content, 1)])
      case MoveContent(id, status, version) => s.(contents := UpdateContent(s.contents, id, status, version))
      case ClaimOther(scope, key, entityID, ttl, now, later) =>
        s.(now := later, leases := Claim(s.leases, ScopedKey(scope, key), entityID, ttl, now, later))
      case CleanUp(now) => s.(now := now, leases := Cleanup(s.leases, now))
  }

  function RunFrom(s: State, steps: seq<Step>): State {
    if steps == [] then s else Next(RunFrom(s, steps[..|steps| - 1]), steps[|steps| - 1])
  }

  /** Empty stores and no calls. */
  function Initial(registered: set<string>, now: int): State {
    State(registered, now, map[], map[],
          Work(TaskTable(map[], map[]), map[], map[], multiset{}, map[], map[]),
          map[], map[], map[])
  }
}
