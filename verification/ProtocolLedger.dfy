/** What the stores say about each task agrees with what happened at the adapter, at every moment of its
    retry loop and forever after: what every step of module Protocol keeps about tasks, attempts and posts. */
module ProtocolLedger {
  import opened Contracts
  import opened Keys
  import opened Policy
  import opened PublishTables
  import opened Protocol

  // ----- The attempt records of one task -----

  /** The i-th attempt opened for the task is stored under its own number. */
  predicate Filed(w: Work, t: string, i: nat)
    requires i < |Opened(w, t)|
  {
    var id := Opened(w, t)[i];
    id in w.attempts && w.attempts[id].id == id && w.attempts[id].taskID == t && w.attempts[id].number == i + 1
  }

  predicate Closed(w: Work, t: string, i: nat, status: PublishTaskStatus)
    requires i < |Opened(w, t)|
  {
    var id := Opened(w, t)[i];
    id in w.attempts && w.attempts[id].completed && w.attempts[id].status == status
  }

  /** n attempts, numbered 1 to n, of which the first `failed` ones are closed as failed. */
  ghost predicate Numbered(w: Work, t: string, n: int, failed: int) {
    && |Opened(w, t)| == n
    && (forall i: nat :: i < n ==> Filed(w, t, i))
    && (forall i: nat :: i < n && i < failed ==> Closed(w, t, i, PublishTaskStatus.Failed))
  }

  // ----- A running task -----

  function StatusAt(run: Run): PublishTaskStatus {
    match run.at
    case Count | OpenAttempt | MarkProcessing => if run.attempt == 0 then Pending else Retrying
    case CloseInvalid(_) => PublishTaskStatus.Failed
    case CloseSucceeded(_) | RecordPost(_) => Succeeded
    case _ => Processing
  }

  /** The adapter's Publish was called in this attempt. */
  predicate AskedYet(at: RunAt) {
    at.MarkSucceeded? || at.CloseSucceeded? || at.RecordPost? || at.CloseRejected? || at.MarkFailed? || at.MarkDead? ||
      at.MarkRetrying?
  }

  predicate AcceptedYet(at: RunAt) {
    at.MarkSucceeded? || at.CloseSucceeded? || at.RecordPost?
  }

  /** This attempt's record is closed. */
  predicate ClosedYet(at: RunAt) {
    at.RecordPost? || at.MarkFailed? || at.MarkDead? || at.MarkRetrying?
  }

  predicate RunCounts(w: Work, contentID: string, platform: string, run: Run) {
    && w.events[Entered(contentID, platform)] == 1
    && w.events[Asked(contentID, platform)] == (if AskedYet(run.at) then run.attempt + 1 else run.attempt)
    && w.events[Accepted(contentID, platform)] == (if AcceptedYet(run.at) then 1 else 0)
  }

  predicate Exhausted(task: Task, error: Message) {
    error.RetriesExhausted? && error.maxRetries == task.policy.maxRetries
  }

  predicate RunTask(w: Work, contentID: string, platform: string, run: Run) {
    run.taskID in w.table.tasks &&
    var task := w.table.tasks[run.taskID];
    && task.contentID == contentID && task.platform == platform
    && task.policy == DefaultRetryPolicy() && run.attempt <= task.policy.maxRetries
    && task.status == StatusAt(run)
    && task.attemptCount == (if run.at.Count? then run.attempt else run.attempt + 1)
    && run.taskID !in w.posts
    && (run.at.CloseInvalid? ==> task.error == run.at.error)
    && (run.at.CloseSucceeded? || run.at.RecordPost? ==> task.error == NoMessage)
    && (task.status == Processing ==> task.error == NoMessage)
    && (run.at.MarkDead? ==> run.attempt == task.policy.maxRetries && Exhausted(task, run.at.error))
    && (run.at.MarkRetrying? ==> run.attempt < task.policy.maxRetries)
  }

  ghost predicate RunAttempts(w: Work, run: Run) {
    if run.at.Count? || run.at.OpenAttempt? then Numbered(w, run.taskID, run.attempt, run.attempt)
    else
      && Numbered(w, run.taskID, run.attempt + 1, run.attempt)
      && Opened(w, run.taskID)[run.attempt] == run.attemptID
      && (ClosedYet(run.at) ==>
            Closed(w, run.taskID, run.attempt, if run.at.RecordPost? then Succeeded else PublishTaskStatus.Failed))
  }

  ghost predicate RunLedger(w: Work, contentID: string, platform: string, run: Run) {
    RunTask(w, contentID, platform, run) && RunCounts(w, contentID, platform, run) && RunAttempts(w, run)
  }

  // ----- A settled task -----

  /** The three ways a task can rest. Exhausted retries leave Processing: the table has no edge to Dead. */
  predicate RestingAs(w: Work, t: string)
    requires t in w.table.tasks
  {
    var task := w.table.tasks[t];
    var asked := w.events[Asked(task.contentID, task.platform)];
    var accepted := w.events[Accepted(task.contentID, task.platform)];
    match task.status
    case Succeeded => t in w.posts && accepted == 1 && asked == task.attemptCount && task.error == NoMessage
    case Failed => t !in w.posts && accepted == 0 && task.attemptCount - 1 <= asked <= task.attemptCount
    case Processing =>
      && t !in w.posts && accepted == 0 && task.error == NoMessage
      && asked == task.attemptCount && task.attemptCount == task.policy.maxRetries + 1
    case _ => false
  }

  ghost predicate Settled(w: Work, t: string) {
    t in w.table.tasks &&
    var task := w.table.tasks[t];
    && task.policy == DefaultRetryPolicy()
    && 1 <= task.attemptCount <= task.policy.maxRetries + 1
    && w.events[Entered(task.contentID, task.platform)] == 1
    && RestingAs(w, t)
    && Numbered(w, t, task.attemptCount, task.attemptCount - 1)
    && Closed(w, t, task.attemptCount - 1, if task.status == Succeeded then Succeeded else PublishTaskStatus.Failed)
  }

  // ----- All tasks -----

  /** The task of exactly this pair. */
  predicate HasTask(w: Work, contentID: string, platform: string) {
    var combo := Combo(contentID, platform);
    combo in w.table.byCombo && w.table.byCombo[combo] in w.table.tasks &&
    var task := w.table.tasks[w.table.byCombo[combo]];
    task.contentID == contentID && task.platform == platform
  }

  predicate NothingHappened(w: Work, contentID: string, platform: string) {
    && w.events[Entered(contentID, platform)] == 0
    && w.events[Asked(contentID, platform)] == 0
    && w.events[Accepted(contentID, platform)] == 0
  }

  /** Every stored attempt is the one its task opened under its number. */
  predicate Traced(w: Work, id: string)
    requires id in w.attempts
  {
    var a := w.attempts[id];
    a.taskID in w.table.tasks && 1 <= a.number <= |Opened(w, a.taskID)| && Opened(w, a.taskID)[a.number - 1] == id
  }

  ghost predicate WorkOk(w: Work) {
    && Indexed(w.table)
    && (forall contentID, platform :: !HasTask(w, contentID, platform) ==> NothingHappened(w, contentID, platform))
    && (forall id :: id in w.attempts ==> Traced(w, id))
    && w.posts.Keys <= w.table.tasks.Keys
  }

  // ----- Other tasks do not notice -----

  /** Nothing that the ledger of task t reads has changed. */
  ghost predicate Same(w: Work, w': Work, t: string) {
    && t in w.table.tasks && t in w'.table.tasks && w'.table.tasks[t] == w.table.tasks[t]
    && (t in w'.posts <==> t in w.posts)
    && Opened(w', t) == Opened(w, t)
    && (forall i: nat :: i < |Opened(w, t)| && Filed(w, t, i) ==>
          Opened(w, t)[i] in w'.attempts && w'.attempts[Opened(w, t)[i]] == w.attempts[Opened(w, t)[i]])
    && var task := w.table.tasks[t];
       && w'.events[Entered(task.contentID, task.platform)] == w.events[Entered(task.contentID, task.platform)]
       && w'.events[Asked(task.contentID, task.platform)] == w.events[Asked(task.contentID, task.platform)]
       && w'.events[Accepted(task.contentID, task.platform)] == w.events[Accepted(task.contentID, task.platform)]
  }

  lemma SameNumbered(w: Work, w': Work, t: string, n: int, failed: int)
    requires Same(w, w', t) && Numbered(w, t, n, failed)
    ensures Numbered(w', t, n, failed)
    ensures forall i: nat, st :: i < n && Closed(w, t, i, st) ==> Closed(w', t, i, st)
  {
    forall i: nat | i < n ensures Filed(w', t, i) { assert Filed(w, t, i); }
    forall i: nat, st | i < n && Closed(w, t, i, st) ensures Closed(w', t, i, st) { assert Filed(w, t, i); }
  }

  lemma SameSettled(w: Work, w': Work, t: string)
    requires Same(w, w', t) && Settled(w, t)
    ensures Settled(w', t)
  {
    SameNumbered(w, w', t, w.table.tasks[t].attemptCount, w.table.tasks[t].attemptCount - 1);
  }

  lemma SameRunLedger(w: Work, w': Work, contentID: string, platform: string, run: Run)
    requires Same(w, w', run.taskID) && RunLedger(w, contentID, platform, run)
    ensures RunLedger(w', contentID, platform, run)
  {
    if run.at.Count? || run.at.OpenAttempt? {
      SameNumbered(w, w', run.taskID, run.attempt, run.attempt);
    } else {
      SameNumbered(w, w', run.taskID, run.attempt + 1, run.attempt);
    }
  }

  /** Two tasks have different pairs. */
  lemma PairsDiffer(w: Work, t: string, u: string)
    requires Indexed(w.table) && t in w.table.tasks && u in w.table.tasks && t != u
    ensures w.table.tasks[t].contentID != w.table.tasks[u].contentID ||
            w.table.tasks[t].platform != w.table.tasks[u].platform
  {
    assert TaskReached(w.table, t) && TaskReached(w.table, u);
  }

  /** Only the task t, its attempts, its post and its pair's events may have changed. */
  ghost predicate Touches(w: Work, w': Work, t: string) {
    && t in w.table.tasks && w'.table.byCombo == w.table.byCombo && w'.createdBy == w.createdBy
    && w'.table.tasks.Keys == w.table.tasks.Keys
    && (forall u :: u in w.table.tasks && u != t ==> w'.table.tasks[u] == w.table.tasks[u])
    && SamePair(w.table.tasks[t], w'.table.tasks[t])
    && (forall u :: u != t ==> (u in w'.posts <==> u in w.posts))
    && (forall u :: u != t ==> Opened(w', u) == Opened(w, u))
    && (forall id :: id in w.attempts && w.attempts[id].taskID != t ==>
        id in w'.attempts && w'.attempts[id] == w.attempts[id])
    && (forall id :: id in w'.attempts ==> Traced(w', id))
    && (forall e: Event :: e.contentID != w.table.tasks[t].contentID || e.platform != w.table.tasks[t].platform ==>
          w'.events[e] == w.events[e])
  }

  predicate SamePair(task: Task, task': Task) {
    task'.id == task.id && task'.contentID == task.contentID && task'.platform == task.platform
  }

  lemma TouchesKeepsWork(w: Work, w': Work, t: string)
    requires WorkOk(w) && Touches(w, w', t)
    ensures WorkOk(w')
  {
    forall k | k in w'.table.byCombo ensures IndexEntryOk(w'.table, k) {
      assert IndexEntryOk(w.table, k);
    }
    forall u | u in w'.table.tasks ensures TaskReached(w'.table, u) {
      assert TaskReached(w.table, u);
    }
    forall contentID, platform | !HasTask(w', contentID, platform) ensures NothingHappened(w', contentID, platform) {
      assert TaskReached(w.table, t);
      assert !HasTask(w, contentID, platform);
    }
  }

  lemma TouchesOnly(w: Work, w': Work, t: string, u: string)
    requires WorkOk(w) && Touches(w, w', t) && u in w.table.tasks && u != t
    ensures Same(w, w', u)
  {
    PairsDiffer(w, t, u);
  }

  lemma StillTraced(w: Work, w': Work)
    requires WorkOk(w) && w'.table.tasks.Keys == w.table.tasks.Keys
    requires w'.attempts == w.attempts && w'.attemptIDs == w.attemptIDs
    ensures forall a :: a in w'.attempts ==> Traced(w', a)
  {
    forall a | a in w'.attempts ensures Traced(w', a) { assert Traced(w, a); }
  }

  lemma IdleTouches(w: Work, t: string)
    requires WorkOk(w) && t in w.table.tasks
    ensures Touches(w, w, t)
  {
  }

  lemma WriteTouches(w: Work, t: string, status: PublishTaskStatus, error: Message)
    requires WorkOk(w) && t in w.table.tasks
    ensures Touches(w, WriteTask(w, t, status, error), t)
  {
    StillTraced(w, WriteTask(w, t, status, error));
    hide WorkOk, Traced;
  }

  lemma CountTouches(w: Work, t: string)
    requires WorkOk(w) && t in w.table.tasks
    ensures Touches(w, w.(table := IncrementAttempts(w.table, t)), t)
  {
    StillTraced(w, w.(table := IncrementAttempts(w.table, t)));
    hide WorkOk, Traced;
  }

  lemma ClosedTraced(w: Work, id: string, status: PublishTaskStatus, error: Message)
    requires WorkOk(w)
    ensures var w' := CloseAttempt(w, id, status, error); forall a :: a in w'.attempts ==> Traced(w', a)
  {
    var w' := CloseAttempt(w, id, status, error);
    assert forall a :: a in w.attempts ==> Traced(w, a);
    hide WorkOk;
    forall a | a in w'.attempts ensures Traced(w', a) { assert Traced(w, a); }
  }

  lemma CloseTouches(w: Work, t: string, id: string, status: PublishTaskStatus, error: Message)
    requires WorkOk(w) && t in w.table.tasks && id in w.attempts && w.attempts[id].taskID == t
    ensures Touches(w, CloseAttempt(w, id, status, error), t)
  {
    hide WorkOk, Traced;
    ClosedTraced(w, id, status, error);
  }

  lemma OpenedTraced(w: Work, t: string, n: nat, id: string)
    requires WorkOk(w) && t in w.table.tasks && |Opened(w, t)| == n && id !in w.attempts
    ensures var w' := OpenAttemptFor(w, t, n + 1, id); forall a :: a in w'.attempts ==> Traced(w', a)
  {
    var w' := OpenAttemptFor(w, t, n + 1, id);
    assert forall a :: a in w.attempts ==> Traced(w, a);
    hide WorkOk;
    assert Opened(w', t) == Opened(w, t) + [id];
    forall a | a in w'.attempts ensures Traced(w', a) {
      if a != id { assert Traced(w, a); }
    }
  }

  lemma OpenTouches(w: Work, t: string, n: nat, id: string)
    requires WorkOk(w) && t in w.table.tasks && |Opened(w, t)| == n && id !in w.attempts
    ensures Touches(w, OpenAttemptFor(w, t, n + 1, id), t)
  {
    hide WorkOk, Traced;
    OpenedTraced(w, t, n, id);
  }

  lemma PostTouches(w: Work, t: string, platform: string, result: PublishResult, id: string)
    requires WorkOk(w) && t in w.table.tasks
    ensures Touches(w, w.(posts := CreatePost(w.posts, t, platform, result, id)), t)
  {
    StillTraced(w, w.(posts := CreatePost(w.posts, t, platform, result, id)));
    hide WorkOk, Traced;
  }

  /** The attempt in progress belongs to the task. */
  lemma CurrentAttempt(w: Work, contentID: string, platform: string, run: Run)
    requires RunLedger(w, contentID, platform, run) && !run.at.Count? && !run.at.OpenAttempt?
    ensures run.attemptID in w.attempts && w.attempts[run.attemptID].taskID == run.taskID
  {
    assert Filed(w, run.taskID, run.attempt);
  }

  lemma RunningTask(w: Work, contentID: string, platform: string, run: Run)
    requires RunLedger(w, contentID, platform, run)
    ensures run.taskID in w.table.tasks && (run.at.OpenAttempt? ==> |Opened(w, run.taskID)| == run.attempt)
  {
  }

  lemma PrepareTouches(w: Work, contentID: string, platform: string, run: Run, id: string, reply: Reply)
    requires WorkOk(w) && RunLedger(w, contentID, platform, run) && id !in w.attempts
    ensures Touches(w, PrepareStep(w, run, id, reply).work, run.taskID)
  {
    hide WorkOk, Touches, RunLedger, WriteTask, CloseAttempt, IncrementAttempts, OpenAttemptFor;
    var t := run.taskID;
    RunningTask(w, contentID, platform, run);
    if run.at.OpenAttempt? {
      OpenTouches(w, t, run.attempt, id);
    } else if run.at.CloseInvalid? {
      CurrentAttempt(w, contentID, platform, run);
      CloseTouches(w, t, run.attemptID, PublishTaskStatus.Failed, run.at.error);
    } else {
      WritingTouches(w, contentID, platform, run, id, reply);
    }
  }

  lemma WritingTouches(w: Work, contentID: string, platform: string, run: Run, id: string, reply: Reply)
    requires WorkOk(w) && RunLedger(w, contentID, platform, run) && !run.at.OpenAttempt? && !run.at.CloseInvalid?
    ensures Touches(w, PrepareStep(w, run, id, reply).work, run.taskID)
  {
    var t := run.taskID;
    hide WorkOk, Touches, WriteTask, IncrementAttempts;
    match run.at
    case Count => CountTouches(w, t);
    case MarkProcessing => WriteTouches(w, t, Processing, NoMessage);
    case MarkInvalid(error) => WriteTouches(w, t, PublishTaskStatus.Failed, error);
    case _ => IdleTouches(w, t);
  }

  lemma SucceedTouches(w: Work, contentID: string, platform: string, run: Run, id: string)
    requires WorkOk(w) && RunLedger(w, contentID, platform, run)
    ensures Touches(w, SucceedStep(w, platform, run, id).work, run.taskID)
  {
    var t := run.taskID;
    IdleTouches(w, t);
    if run.at.CloseSucceeded? { CurrentAttempt(w, contentID, platform, run); }
    hide WorkOk, Touches, RunLedger, WriteTask, CloseAttempt, CreatePost;
    match run.at
    case MarkSucceeded(_) => WriteTouches(w, t, Succeeded, NoMessage);
    case CloseSucceeded(_) => CloseTouches(w, t, run.attemptID, Succeeded, NoMessage);
    case RecordPost(result) => PostTouches(w, t, platform, result, id);
    case _ =>
  }

  lemma FailTouches(w: Work, contentID: string, platform: string, run: Run)
    requires WorkOk(w) && RunLedger(w, contentID, platform, run)
    ensures Touches(w, FailStep(w, run).work, run.taskID)
  {
    var t := run.taskID;
    IdleTouches(w, t);
    if run.at.CloseRejected? { CurrentAttempt(w, contentID, platform, run); }
    hide WorkOk, Touches, RunLedger, WriteTask, CloseAttempt, MaxRetries;
    match run.at
    case CloseRejected(cause, _) => CloseTouches(w, t, run.attemptID, PublishTaskStatus.Failed, Cause(cause));
    case MarkFailed(error) => WriteTouches(w, t, PublishTaskStatus.Failed, error);
    case MarkDead(error) => WriteTouches(w, t, Dead, error);
    case MarkRetrying(cause) => WriteTouches(w, t, Retrying, Cause(cause));
    case _ =>
  }

  lemma PublishTouches(w: Work, contentID: string, platform: string, run: Run, reply: Reply)
    requires WorkOk(w) && RunLedger(w, contentID, platform, run)
    ensures Touches(w, PublishStep(w, contentID, platform, run, reply).work, run.taskID)
  {
    StillTraced(w, PublishStep(w, contentID, platform, run, reply).work);
    assert run.taskID in w.table.tasks;
    hide WorkOk, Traced, RunAttempts, RunCounts;
  }

  lemma StepTouches(w: Work, contentID: string, platform: string, run: Run, id: string, reply: Reply)
    requires WorkOk(w) && RunLedger(w, contentID, platform, run) && id !in w.attempts
    ensures Touches(w, RunStep(w, contentID, platform, run, id, reply).work, run.taskID)
  {
    PrepareTouches(w, contentID, platform, run, id, reply);
    PublishTouches(w, contentID, platform, run, reply);
    SucceedTouches(w, contentID, platform, run, id);
    FailTouches(w, contentID, platform, run);
    hide WorkOk, Touches, RunLedger, PrepareStep, PublishStep, SucceedStep, FailStep;
  }

  // ----- The retry loop keeps its ledger -----

  /** The entry says what the store says, except that exhausted retries are reported as Dead. */
  predicate Agrees(task: Task, r: Report) {
    || (r.status == task.status && r.error == task.error)
    || (r.status == Dead && Exhausted(task, r.error) && task.status == Processing)
  }

  ghost predicate StepLedger(w: Work, contentID: string, platform: string, run: Run, o: Outcome) {
    match o
    case Continue(w', run') => run'.taskID == run.taskID && RunLedger(w', contentID, platform, run')
    case Done(w', report) =>
      Settled(w', run.taskID) && report.taskID == run.taskID && report.origin == Executed &&
        Agrees(w'.table.tasks[run.taskID], report)
  }

  lemma SameOpened(w: Work, w': Work, t: string)
    ensures w'.attemptIDs == w.attemptIDs ==> Opened(w', t) == Opened(w, t)
  {
  }

  lemma SameAttempts(w: Work, w': Work, t: string, n: int, failed: int)
    requires Numbered(w, t, n, failed) && w'.attempts == w.attempts && w'.attemptIDs == w.attemptIDs
    ensures Numbered(w', t, n, failed)
    ensures forall i: nat, st :: i < n ==> Closed(w, t, i, st) == Closed(w', t, i, st)
  {
    forall i: nat | i < n ensures Filed(w', t, i) { assert Filed(w, t, i); }
    forall i: nat | i < n && i < failed ensures Closed(w', t, i, PublishTaskStatus.Failed) {
      assert Closed(w, t, i, PublishTaskStatus.Failed);
    }
  }

  lemma OpeningLedger(w: Work, contentID: string, platform: string, run: Run, id: string, reply: Reply)
    requires RunLedger(w, contentID, platform, run) && id !in w.attempts && run.at.OpenAttempt?
    ensures StepLedger(w, contentID, platform, run, PrepareStep(w, run, id, reply))
  {
    var t, n := run.taskID, run.attempt;
    var w' := OpenAttemptFor(w, t, n + 1, id);
    assert Opened(w', t) == Opened(w, t) + [id];
    forall i: nat | i < n + 1 ensures Filed(w', t, i) { if i < n { assert Filed(w, t, i); } }
    forall i: nat | i < n ensures Closed(w', t, i, PublishTaskStatus.Failed) {
      assert Closed(w, t, i, PublishTaskStatus.Failed) && Filed(w, t, i);
    }
  }

  lemma WritingLedger(w: Work, contentID: string, platform: string, run: Run, id: string, reply: Reply)
    requires RunLedger(w, contentID, platform, run)
    requires run.at.Count? || run.at.MarkProcessing? || run.at.MarkInvalid?
    ensures StepLedger(w, contentID, platform, run, PrepareStep(w, run, id, reply))
  {
    hide Numbered, Closed, Opened;
    var w' := PrepareStep(w, run, id, reply).work;
    SameAttempts(w, w', run.taskID, if run.at.Count? then run.attempt else run.attempt + 1, run.attempt);
    SameOpened(w, w', run.taskID);
  }

  lemma CheckingLedger(w: Work, contentID: string, platform: string, run: Run, id: string, reply: Reply)
    requires RunLedger(w, contentID, platform, run) && (run.at.Validate? || run.at.Upload?)
    ensures StepLedger(w, contentID, platform, run, PrepareStep(w, run, id, reply))
  {
    hide Numbered, Closed;
  }

  /** Closing the current attempt leaves the earlier ones alone. */
  lemma ClosingNumbers(w: Work, t: string, n: nat, id: string, status: PublishTaskStatus, error: Message)
    requires Numbered(w, t, n + 1, n) && Opened(w, t)[n] == id
    ensures var w' := CloseAttempt(w, id, status, error);
            Numbered(w', t, n + 1, n) && Opened(w', t)[n] == id && Closed(w', t, n, status)
  {
    var w' := CloseAttempt(w, id, status, error);
    assert Filed(w, t, n);
    forall i: nat | i < n + 1 ensures Filed(w', t, i) { assert Filed(w, t, i); }
    forall i: nat | i < n ensures Closed(w', t, i, PublishTaskStatus.Failed) {
      assert Closed(w, t, i, PublishTaskStatus.Failed) && Filed(w, t, i);
    }
  }

  lemma ClosingLedger(w: Work, contentID: string, platform: string, run: Run, id: string, reply: Reply)
    requires RunLedger(w, contentID, platform, run)
    ensures run.at.CloseInvalid? ==> StepLedger(w, contentID, platform, run, PrepareStep(w, run, id, reply))
    ensures run.at.CloseSucceeded? ==> StepLedger(w, contentID, platform, run, SucceedStep(w, platform, run, id))
    ensures run.at.CloseRejected? ==> StepLedger(w, contentID, platform, run, FailStep(w, run))
  {
    if run.at.CloseInvalid? {
      ClosingNumbers(w, run.taskID, run.attempt, run.attemptID, PublishTaskStatus.Failed, run.at.error);
    } else if run.at.CloseSucceeded? {
      ClosingNumbers(w, run.taskID, run.attempt, run.attemptID, Succeeded, NoMessage);
    } else if run.at.CloseRejected? {
      ClosingNumbers(w, run.taskID, run.attempt, run.attemptID, PublishTaskStatus.Failed, Cause(run.at.cause));
    }
    hide Numbered, Closed;
  }

  lemma PublishingLedger(w: Work, contentID: string, platform: string, run: Run, reply: Reply)
    requires RunLedger(w, contentID, platform, run) && run.at.Publish?
    ensures StepLedger(w, contentID, platform, run, PublishStep(w, contentID, platform, run, reply))
  {
    var w' := PublishStep(w, contentID, platform, run, reply).work;
    SameAttempts(w, w', run.taskID, run.attempt + 1, run.attempt);
    hide Numbered, Closed;
  }

  lemma SucceedingLedger(w: Work, contentID: string, platform: string, run: Run, id: string)
    requires RunLedger(w, contentID, platform, run) && (run.at.MarkSucceeded? || run.at.RecordPost?)
    ensures StepLedger(w, contentID, platform, run, SucceedStep(w, platform, run, id))
  {
    var w' := SucceedStep(w, platform, run, id).work;
    SameAttempts(w, w', run.taskID, run.attempt + 1, run.attempt);
    hide Numbered, Closed;
  }

  lemma FailingLedger(w: Work, contentID: string, platform: string, run: Run)
    requires RunLedger(w, contentID, platform, run) && (run.at.MarkFailed? || run.at.MarkDead? || run.at.MarkRetrying?)
    ensures StepLedger(w, contentID, platform, run, FailStep(w, run))
  {
    var w' := FailStep(w, run).work;
    SameAttempts(w, w', run.taskID, run.attempt + 1, run.attempt);
    if run.at.MarkRetrying? {
      assert Closed(w, run.taskID, run.attempt, PublishTaskStatus.Failed);
      assert Numbered(w', run.taskID, run.attempt + 1, run.attempt + 1);
    }
    hide Numbered, Closed;
  }

  lemma StepKeepsLedger(w: Work, contentID: string, platform: string, run: Run, id: string, reply: Reply)
    requires RunLedger(w, contentID, platform, run) && id !in w.attempts
    ensures StepLedger(w, contentID, platform, run, RunStep(w, contentID, platform, run, id, reply))
  {
    match run.at
    case Publish => PublishingLedger(w, contentID, platform, run, reply);
    case OpenAttempt => OpeningLedger(w, contentID, platform, run, id, reply);
    case CloseInvalid(_) => ClosingLedger(w, contentID, platform, run, id, reply);
    case CloseSucceeded(_) => ClosingLedger(w, contentID, platform, run, id, reply);
    case CloseRejected(_, _) => ClosingLedger(w, contentID, platform, run, id, reply);
    case MarkSucceeded(_) => SucceedingLedger(w, contentID, platform, run, id);
    case RecordPost(_) => SucceedingLedger(w, contentID, platform, run, id);
    case MarkFailed(_) => FailingLedger(w, contentID, platform, run);
    case MarkDead(_) => FailingLedger(w, contentID, platform, run);
    case MarkRetrying(_) => FailingLedger(w, contentID, platform, run);
    case Validate => CheckingLedger(w, contentID, platform, run, id, reply);
    case Upload => CheckingLedger(w, contentID, platform, run, id, reply);
    case _ => WritingLedger(w, contentID, platform, run, id, reply);
    hide RunLedger, StepLedger, PrepareStep, PublishStep, SucceedStep, FailStep;
  }
}
