/** What the stores tell of a task at rest is enough to retell its retry loop: how each attempt ended, and which call
    made the task. What every step of module Protocol keeps about these stories. */
module ProtocolStories {
  import opened Contracts
  import opened Keys
  import opened Policy
  import opened PublishTables
  import opened Protocol
  import opened ProtocolLocks
  import opened ProtocolKeys
  import opened ProtocolLedger
  import opened ProtocolSafety
  import opened ProtocolReports
  import R = Retry
  import T = ProtocolTheorems

  // ----- The story of a task at rest -----

  function CauseOf(w: Work, t: string, i: nat): string {
    if i < |Opened(w, t)| && Opened(w, t)[i] in w.attempts && w.attempts[Opened(w, t)[i]].error.Cause?
    then w.attempts[Opened(w, t)[i]].error.cause
    else ""
  }

  /** How the last attempt ended, unless it was refused once too often. */
  function LastEnd(w: Work, t: string): R.AttemptEnd
    requires t in w.table.tasks
  {
    match w.table.tasks[t].error
    case ValidationFailed(cause) => R.Invalid(cause)
    case UploadFailed(cause) => R.NotUploaded(cause)
    case PermanentFailure(cause) => R.Refused(cause, false)
    case _ => R.Posted(if t in w.posts then w.posts[t].result else PublishResult("", "", ""))
  }

  /** How attempt i of a task at rest ended, as its records, its row and its post tell it. */
  function EndIn(w: Work, t: string, i: nat): R.AttemptEnd
    requires t in w.table.tasks
  {
    var task := w.table.tasks[t];
    if i + 1 < task.attemptCount || task.status == Processing then R.Refused(CauseOf(w, t, i), true) else LastEnd(w, t)
  }

  function VerdictIn(w: Work, t: string): R.RetryResult
    requires t in w.table.tasks && w.table.tasks[t].attemptCount > 0
  {
    R.Verdict(EndIn(w, t, w.table.tasks[t].attemptCount - 1), w.table.tasks[t].policy.maxRetries)
  }

  predicate RecordOk(w: Work, t: string, i: nat)
    requires t in w.table.tasks && i < |Opened(w, t)|
  {
    var id := Opened(w, t)[i];
    id in w.attempts && w.attempts[id] == R.Record(id, t, EndIn(w, t, i), i)
  }

  /** Row, records and post are those of a loop whose attempts ended so. */
  ghost predicate Story(w: Work, t: string) {
    t in w.table.tasks &&
    var task := w.table.tasks[t];
    var n, max := task.attemptCount, task.policy.maxRetries;
    && task.policy == DefaultRetryPolicy() && task.id == t
    && 1 <= n <= max + 1 && |Opened(w, t)| == n
    && (forall i: nat :: i < n ==> RecordOk(w, t, i))
    && (task.status, task.error) == R.Stored(VerdictIn(w, t))
    && (R.Retries(EndIn(w, t, n - 1)) ==> n == max + 1)
    && (t in w.posts <==> EndIn(w, t, n - 1).Posted?)
    && (t in w.posts ==> w.posts[t] == Post(w.posts[t].id, t, task.platform, EndIn(w, t, n - 1).result))
  }

  // ----- The story of a running task -----

  predicate Says(w: Work, t: string, i: nat, error: Message)
    requires i < |Opened(w, t)|
  {
    Opened(w, t)[i] in w.attempts && w.attempts[Opened(w, t)[i]].error == error
  }

  /** The attempt's record tells of a refusal after which the loop may go on. */
  predicate Rejected(w: Work, t: string, i: nat)
    requires i < |Opened(w, t)|
  {
    Opened(w, t)[i] in w.attempts && w.attempts[Opened(w, t)[i]].error.Cause?
  }

  /** What the closed record of the attempt in progress says. */
  function Said(at: RunAt): Message {
    match at
    case MarkFailed(PermanentFailure(cause)) => Cause(cause)
    case MarkDead(RetriesExhausted(_, cause)) => Cause(cause)
    case MarkRetrying(cause) => Cause(cause)
    case _ => NoMessage
  }

  predicate WellSaid(at: RunAt) {
    && (at.MarkInvalid? || at.CloseInvalid? ==> at.error.ValidationFailed? || at.error.UploadFailed?)
    && (at.MarkFailed? ==> at.error.PermanentFailure?)
    && (at.MarkDead? ==> at.error.RetriesExhausted?)
  }

  ghost predicate RunStory(w: Work, run: Run) {
    && WellSaid(run.at) && run.attempt <= |Opened(w, run.taskID)|
    && (forall i: nat :: i < run.attempt ==> Rejected(w, run.taskID, i))
    && (ClosedYet(run.at) ==>
          run.attempt < |Opened(w, run.taskID)| && Says(w, run.taskID, run.attempt, Said(run.at)))
    && (Midway(run.at) ==>
          run.attempt < |Opened(w, run.taskID)| && InProgress(w, run.taskID, run.attempt))
    && (Waits(run.at) ==> RowSays(w, run))
  }

  /** The next attempt is not yet marked as processing. */
  predicate Waits(at: RunAt) {
    at.Count? || at.OpenAttempt? || at.MarkProcessing?
  }

  /** The row tells why the attempt before was refused. */
  predicate RowSays(w: Work, run: Run)
    requires run.attempt <= |Opened(w, run.taskID)|
  {
    run.taskID in w.table.tasks &&
    var error := w.table.tasks[run.taskID].error;
    if run.attempt == 0 then error == NoMessage else Says(w, run.taskID, run.attempt - 1, error)
  }

  /** The attempt is open. */
  predicate Midway(at: RunAt) {
    !at.Count? && !at.OpenAttempt? && !ClosedYet(at)
  }

  /** Its record is under its number, processing, not completed, and without an error. */
  predicate InProgress(w: Work, t: string, i: nat)
    requires i < |Opened(w, t)|
  {
    var id := Opened(w, t)[i];
    id in w.attempts && w.attempts[id] == Attempt(id, t, i + 1, Processing, false, NoMessage)
  }

  // ----- From the running task to the one at rest -----

  /** What the last record says, next to the row and the post. */
  predicate LastSaid(w: Work, t: string) {
    t in w.table.tasks && 0 < |Opened(w, t)| &&
    var task, n := w.table.tasks[t], |Opened(w, t)|;
    match task.status
    case Succeeded =>
      && Says(w, t, n - 1, NoMessage)
      && t in w.posts && w.posts[t].taskID == t && w.posts[t].platform == task.platform
    case Failed =>
      (match task.error
       case ValidationFailed(_) => Says(w, t, n - 1, task.error)
       case UploadFailed(_) => Says(w, t, n - 1, task.error)
       case PermanentFailure(cause) => Says(w, t, n - 1, Cause(cause))
       case _ => false)
    case _ => Rejected(w, t, n - 1)
  }

  lemma SettledStory(w: Work, t: string)
    requires Settled(w, t) && LastSaid(w, t) && w.table.tasks[t].id == t
    requires forall i: nat :: i + 1 < |Opened(w, t)| ==> Rejected(w, t, i)
    ensures Story(w, t)
  {
    var n := w.table.tasks[t].attemptCount;
    forall i: nat | i < n ensures RecordOk(w, t, i) {
      assert Filed(w, t, i);
      if i + 1 < n {
        assert Closed(w, t, i, PublishTaskStatus.Failed) && Rejected(w, t, i);
      }
    }
  }

  // ----- Steps of the retry loop -----

  /** The posts of other tasks stay, and a post is never rewritten. */
  ghost predicate PostsStay(w: Work, w': Work, t: string) {
    && (forall u :: u in w.posts ==> u in w'.posts && w'.posts[u] == w.posts[u])
    && (forall u :: u != t ==> (u in w'.posts <==> u in w.posts))
  }

  lemma StepKeepsPosts(w: Work, contentID: string, platform: string, run: Run, id: string, reply: Reply)
    ensures PostsStay(w, RunStep(w, contentID, platform, run, id, reply).work, run.taskID)
  {
    hide PrepareStep, PublishStep, SucceedStep, FailStep;
    PreparingKeepsPosts(w, run, id, reply);
    SucceedingKeepsPosts(w, platform, run, id);
    FailingKeepsPosts(w, contentID, platform, run, reply);
  }

  lemma PreparingKeepsPosts(w: Work, run: Run, id: string, reply: Reply)
    ensures PrepareStep(w, run, id, reply).work.posts == w.posts
  {
    hide UpdateTask, IncrementAttempts, CompleteAttempt;
  }

  lemma SucceedingKeepsPosts(w: Work, platform: string, run: Run, id: string)
    ensures PostsStay(w, SucceedStep(w, platform, run, id).work, run.taskID)
  {
    hide UpdateTask, CompleteAttempt;
  }

  lemma FailingKeepsPosts(w: Work, contentID: string, platform: string, run: Run, reply: Reply)
    ensures PublishStep(w, contentID, platform, run, reply).work.posts == w.posts
    ensures FailStep(w, run).work.posts == w.posts
  {
    hide UpdateTask, CompleteAttempt, MaxRetries;
  }

  predicate SameError(w: Work, w': Work, id: string) {
    id in w.attempts ==> id in w'.attempts && w'.attempts[id].error == w.attempts[id].error
  }

  /** The earlier records keep saying what they said. */
  lemma RejectedStay(w: Work, w': Work, t: string, n: nat)
    requires n <= |Opened(w, t)| <= |Opened(w', t)| && forall i: nat :: i < n ==> Rejected(w, t, i)
    requires forall i: nat :: i < n ==> Opened(w', t)[i] == Opened(w, t)[i]
    requires forall i: nat :: i < n ==> SameError(w, w', Opened(w, t)[i])
    ensures forall i: nat :: i < n ==> Rejected(w', t, i)
  {
    forall i: nat | i < n ensures Rejected(w', t, i) { assert Rejected(w, t, i); }
  }

  lemma OpeningStory(w: Work, contentID: string, platform: string, run: Run, id: string, reply: Reply)
    requires RunLedger(w, contentID, platform, run) && RunStory(w, run) && run.at.OpenAttempt? && id !in w.attempts
    ensures StepStory(run, PrepareStep(w, run, id, reply))
  {
    var w', t := OpenAttemptFor(w, run.taskID, run.attempt + 1, id), run.taskID;
    assert Opened(w', t) == Opened(w, t) + [id];
    RejectedStay(w, w', t, run.attempt);
  }

  /** After a step of the loop: the story goes on, or it is complete and the entry is its verdict. */
  ghost predicate StepStory(run: Run, o: Outcome) {
    match o
    case Continue(w', run') => RunStory(w', run')
    case Done(w', report) =>
      && Story(w', run.taskID)
      && (report.status, report.error) == (VerdictIn(w', run.taskID).status, VerdictIn(w', run.taskID).error)
  }

  /** Steps that leave the attempts alone. */
  lemma SameRejected(w: Work, w': Work, t: string, n: nat)
    requires n <= |Opened(w, t)| && w'.attempts == w.attempts && w'.attemptIDs == w.attemptIDs
    requires forall i: nat :: i < n ==> Rejected(w, t, i)
    ensures |Opened(w', t)| == |Opened(w, t)| && forall i: nat :: i < n ==> Rejected(w', t, i)
    ensures forall i: nat, error :: i < |Opened(w, t)| && Says(w, t, i, error) ==> Says(w', t, i, error)
  {
    RejectedStay(w, w', t, n);
  }

  /** Steps that neither open nor close an attempt nor leave the loop. */
  predicate Between(at: RunAt) {
    at.Count? || at.MarkProcessing? || at.Validate? || at.Upload? || at.Publish? || at.MarkInvalid? ||
      at.MarkSucceeded? || at.MarkRetrying?
  }

  predicate LeadsOn(w: Work, run: Run, o: Outcome) {
    && o.Continue? && o.work.attempts == w.attempts && o.work.attemptIDs == w.attemptIDs
    && o.run.taskID == run.taskID && WellSaid(o.run.at) && !ClosedYet(o.run.at)
    && o.run.attempt == (if run.at.MarkRetrying? then run.attempt + 1 else run.attempt)
    && (Midway(o.run.at) ==> Midway(run.at) && o.run.attempt == run.attempt)
    && (Waits(o.run.at) ==>
          run.taskID in w.table.tasks && run.taskID in o.work.table.tasks &&
          o.work.table.tasks[run.taskID].error ==
          if run.at.MarkRetrying? then Cause(run.at.cause) else w.table.tasks[run.taskID].error)
    && (Waits(o.run.at) && !run.at.MarkRetrying? ==> Waits(run.at))
  }

  lemma BetweenGoesOn(w: Work, contentID: string, platform: string, run: Run, id: string, reply: Reply)
    requires Between(run.at) && WellSaid(run.at) && RunTask(w, contentID, platform, run)
    ensures LeadsOn(w, run, RunStep(w, contentID, platform, run, id, reply))
  {
    if run.at.Publish? || run.at.MarkSucceeded? || run.at.MarkRetrying? {
      LateGoesOn(w, contentID, platform, run, id, reply);
    } else {
      EarlyGoesOn(w, run, id, reply);
    }
    hide LeadsOn, PrepareStep, PublishStep, SucceedStep, FailStep;
  }

  lemma EarlyGoesOn(w: Work, run: Run, id: string, reply: Reply)
    requires Between(run.at) && WellSaid(run.at) && run.taskID in w.table.tasks
    requires !run.at.Publish? && !run.at.MarkSucceeded? && !run.at.MarkRetrying?
    ensures LeadsOn(w, run, PrepareStep(w, run, id, reply))
  {
    hide UpdateTask;
  }

  lemma LateGoesOn(w: Work, contentID: string, platform: string, run: Run, id: string, reply: Reply)
    requires RunTask(w, contentID, platform, run)
    ensures run.at.Publish? ==> LeadsOn(w, run, PublishStep(w, contentID, platform, run, reply))
    ensures run.at.MarkSucceeded? ==> LeadsOn(w, run, SucceedStep(w, platform, run, id))
    ensures run.at.MarkRetrying? ==> LeadsOn(w, run, FailStep(w, run))
  {
  }

  lemma BetweenStory(w: Work, contentID: string, platform: string, run: Run, id: string, reply: Reply)
    requires RunLedger(w, contentID, platform, run) && RunStory(w, run) && Between(run.at)
    ensures StepStory(run, RunStep(w, contentID, platform, run, id, reply))
  {
    BetweenGoesOn(w, contentID, platform, run, id, reply);
    var o := RunStep(w, contentID, platform, run, id, reply);
    if run.at.MarkRetrying? { assert Rejected(w, run.taskID, run.attempt); }
    RejectedStay(w, o.work, run.taskID, o.run.attempt);
    hide RunStep, RunLedger;
  }

  /** Closing the attempt in progress. */
  lemma ClosingStory(w: Work, t: string, n: nat, id: string, status: PublishTaskStatus, error: Message)
    requires Numbered(w, t, n + 1, n) && Opened(w, t)[n] == id && forall i: nat :: i < n ==> Rejected(w, t, i)
    ensures var w' := CloseAttempt(w, id, status, error);
            Opened(w', t) == Opened(w, t) && Says(w', t, n, error) && forall i: nat :: i < n ==> Rejected(w', t, i)
  {
    var w' := CloseAttempt(w, id, status, error);
    assert Filed(w, t, n);
    forall i: nat | i < n ensures SameError(w, w', Opened(w, t)[i]) { assert Filed(w, t, i); }
    RejectedStay(w, w', t, n);
  }

  /** The number of the attempt in progress. */
  lemma CurrentNumber(w: Work, contentID: string, platform: string, run: Run)
    requires RunLedger(w, contentID, platform, run) && !run.at.Count? && !run.at.OpenAttempt?
    ensures Numbered(w, run.taskID, run.attempt + 1, run.attempt) && Opened(w, run.taskID)[run.attempt] == run.attemptID
  {
  }

  lemma ClosedGoesOn(w: Work, contentID: string, platform: string, run: Run, id: string)
    requires RunLedger(w, contentID, platform, run) && RunStory(w, run)
    ensures run.at.CloseSucceeded? ==> StepStory(run, SucceedStep(w, platform, run, id))
    ensures run.at.CloseRejected? ==> StepStory(run, FailStep(w, run))
  {
    var t, n := run.taskID, run.attempt;
    if run.at.CloseSucceeded? {
      CurrentNumber(w, contentID, platform, run);
      ClosingStory(w, t, n, run.attemptID, Succeeded, NoMessage);
    } else if run.at.CloseRejected? {
      CurrentNumber(w, contentID, platform, run);
      ClosingStory(w, t, n, run.attemptID, PublishTaskStatus.Failed, Cause(run.at.cause));
    }
    hide RunLedger, Numbered, CloseAttempt, Says, Rejected;
  }

  /** The loop is left: its story is complete. */
  lemma DoneStory(w: Work, t: string)
    requires Settled(w, t) && LastSaid(w, t) && w.table.tasks[t].id == t
    requires forall i: nat :: i + 1 < |Opened(w, t)| ==> Rejected(w, t, i)
    ensures Story(w, t)
    ensures var task, told := w.table.tasks[t], VerdictIn(w, t);
            match task.status
            case Processing =>
              told.status == Dead &&
              told.error == RetriesExhausted(task.policy.maxRetries, CauseOf(w, t, |Opened(w, t)| - 1))
            case _ => (told.status, told.error) == (task.status, task.error)
  {
    SettledStory(w, t);
    hide Settled, RecordOk, Rejected;
  }

  lemma InvalidLeaves(w: Work, contentID: string, platform: string, run: Run, id: string, reply: Reply)
    requires RunLedger(w, contentID, platform, run) && RunStory(w, run) && run.at.CloseInvalid?
    requires w.table.tasks[run.taskID].id == run.taskID
    requires StepLedger(w, contentID, platform, run, PrepareStep(w, run, id, reply))
    ensures StepStory(run, PrepareStep(w, run, id, reply))
  {
    var t, n := run.taskID, run.attempt;
    var w' := PrepareStep(w, run, id, reply).work;
    CurrentNumber(w, contentID, platform, run);
    ClosingStory(w, t, n, run.attemptID, PublishTaskStatus.Failed, run.at.error);
    assert |Opened(w', t)| == n + 1;
    DoneStory(w', t);
    hide RunLedger, Settled, Numbered, Says, Rejected, Story;
  }

  lemma PostLeaves(w: Work, contentID: string, platform: string, run: Run, id: string)
    requires RunLedger(w, contentID, platform, run) && RunStory(w, run) && run.at.RecordPost?
    requires w.table.tasks[run.taskID].id == run.taskID
    requires StepLedger(w, contentID, platform, run, SucceedStep(w, platform, run, id))
    ensures StepStory(run, SucceedStep(w, platform, run, id))
  {
    var t, n := run.taskID, run.attempt;
    var w' := SucceedStep(w, platform, run, id).work;
    CurrentNumber(w, contentID, platform, run);
    SameRejected(w, w', t, n);
    assert Says(w', t, n, NoMessage);
    DoneStory(w', t);
    hide Settled, RunCounts, RunAttempts, Numbered, Says, Rejected, Story;
  }

  lemma FailLeaves(w: Work, contentID: string, platform: string, run: Run)
    requires RunLedger(w, contentID, platform, run) && RunStory(w, run) && (run.at.MarkFailed? || run.at.MarkDead?)
    requires w.table.tasks[run.taskID].id == run.taskID
    requires StepLedger(w, contentID, platform, run, FailStep(w, run))
    ensures StepStory(run, FailStep(w, run))
  {
    var t, n := run.taskID, run.attempt;
    var w' := FailStep(w, run).work;
    CurrentNumber(w, contentID, platform, run);
    SameRejected(w, w', t, n);
    assert Says(w', t, n, Said(run.at));
    if run.at.MarkDead? { assert Rejected(w', t, n); }
    DoneStory(w', t);
    hide Settled, RunCounts, RunAttempts, Numbered, Says, Rejected, Story;
  }

  lemma {:induction false} StepKeepsStory(w: Work, contentID: string, platform: string, run: Run, id: string,
                                          reply: Reply)
    requires RunLedger(w, contentID, platform, run) && RunStory(w, run) && id !in w.attempts
    requires run.taskID in w.table.tasks && w.table.tasks[run.taskID].id == run.taskID
    ensures StepStory(run, RunStep(w, contentID, platform, run, id, reply))
  {
    StepKeepsLedger(w, contentID, platform, run, id, reply);
    match run.at
    case OpenAttempt => OpeningStory(w, contentID, platform, run, id, reply);
    case CloseInvalid(_) => InvalidLeaves(w, contentID, platform, run, id, reply);
    case CloseSucceeded(_) => ClosedGoesOn(w, contentID, platform, run, id);
    case CloseRejected(_, _) => ClosedGoesOn(w, contentID, platform, run, id);
    case RecordPost(_) => PostLeaves(w, contentID, platform, run, id);
    case MarkFailed(_) => FailLeaves(w, contentID, platform, run);
    case MarkDead(_) => FailLeaves(w, contentID, platform, run);
    case _ => BetweenStory(w, contentID, platform, run, id, reply);
    hide RunLedger, RunStory, StepLedger, StepStory, PrepareStep, PublishStep, SucceedStep, FailStep;
  }

  // ----- Other tasks' stories do not change -----

  predicate SameRecord(w: Work, w': Work, id: string) {
    id in w.attempts ==> id in w'.attempts && w'.attempts[id] == w.attempts[id]
  }

  /** Nothing that the story of task t tells of has changed, nor who made the task. */
  ghost predicate SameStory(w: Work, w': Work, t: string) {
    && t in w.table.tasks && t in w'.table.tasks && w'.table.tasks[t] == w.table.tasks[t]
    && Opened(w', t) == Opened(w, t)
    && (forall i: nat :: i < |Opened(w, t)| ==> SameRecord(w, w', Opened(w, t)[i]))
    && (t in w'.posts <==> t in w.posts) && (t in w.posts ==> w'.posts[t] == w.posts[t])
    && t in w.createdBy && t in w'.createdBy && w'.createdBy[t] == w.createdBy[t]
  }

  lemma SameEnds(w: Work, w': Work, t: string)
    requires SameStory(w, w', t) && Story(w, t)
    ensures forall i: nat :: EndIn(w', t, i) == EndIn(w, t, i)
    ensures VerdictIn(w', t) == VerdictIn(w, t)
  {
    forall i: nat ensures EndIn(w', t, i) == EndIn(w, t, i) {
      if i < |Opened(w, t)| { assert RecordOk(w, t, i); }
    }
  }

  lemma StoryStays(w: Work, w': Work, t: string)
    requires SameStory(w, w', t) && Story(w, t)
    ensures Story(w', t)
  {
    SameEnds(w, w', t);
    forall i: nat | i < |Opened(w', t)| ensures RecordOk(w', t, i) { assert RecordOk(w, t, i); }
    hide EndIn;
  }

  lemma RunStoryStays(w: Work, w': Work, run: Run)
    requires SameStory(w, w', run.taskID) && RunStory(w, run)
    ensures RunStory(w', run)
  {
    forall i: nat | i < run.attempt ensures Rejected(w', run.taskID, i) { assert Rejected(w, run.taskID, i); }
  }

  /** A step of the loop of one task leaves the stories of the others alone. */
  lemma TouchesOneStory(w: Work, w': Work, t: string, u: string)
    requires Touches(w, w', t) && PostsStay(w, w', t) && u != t && u in w.table.tasks && u in w.createdBy
    requires forall i: nat :: i < |Opened(w, u)| ==> Filed(w, u, i)
    ensures SameStory(w, w', u)
  {
    forall i: nat | i < |Opened(w, u)| ensures SameRecord(w, w', Opened(w, u)[i]) { assert Filed(w, u, i); }
  }

  lemma TaskIsFiled(s: State, t: string)
    requires TasksOk(s) && t in s.work.table.tasks
    ensures forall i: nat :: i < |Opened(s.work, t)| ==> Filed(s.work, t, i)
  {
    assert TaskOk(s, t);
    if RunBy(s, t) { assert RunOk(s, s.work.createdBy[t]); }
    hide WorkOk, RunCounts, RunTask, RestingAs;
  }

  // ----- Who made which task, and which entry came about how -----

  /** The call has not taken its lock, and perhaps never will. */
  predicate Early(c: Call) {
    c.at.Fetch? || c.at.Recheck? || c.at.TakeLock? || c.at == Returned(false)
  }

  /** The platforms that have their entries. */
  function Handled(c: Call): seq<string> {
    if |c.reports| <= |c.platforms| then c.platforms[..|c.reports|] else c.platforms
  }

  /** The task was made by a call on its content, for one of the call's platforms. */
  predicate AuthorOk(s: State, t: string)
    requires t in s.work.table.tasks
  {
    t in s.work.createdBy && s.work.createdBy[t] in s.calls &&
    var c, task := s.calls[s.work.createdBy[t]], s.work.table.tasks[t];
    && !Early(c) && task.contentID == c.contentID && task.platform in s.registered
    && (task.platform in Handled(c) || (c.at.Running? && c.at.run.taskID == t))
  }

  ghost predicate TaskStoryOk(s: State, t: string)
    requires t in s.work.table.tasks
  {
    AuthorOk(s, t) && (RunBy(s, t) || Story(s.work, t))
  }

  /** The loop runs for the first mention of its platform. */
  ghost predicate RunStoryOk(s: State, pid: nat)
    requires pid in s.calls && s.calls[pid].at.Running?
  {
    RunStory(s.work, s.calls[pid].at.run) && Platform(s.calls[pid]) !in Handled(s.calls[pid])
  }

  /** An executed entry is the first for its platform, about a task of the call's own, and tells the verdict. */
  predicate EntryOk(s: State, pid: nat, i: nat)
    requires pid in s.calls && i < |s.calls[pid].reports| && i < |s.calls[pid].platforms|
  {
    var c := s.calls[pid];
    var r, t := c.reports[i], c.reports[i].taskID;
    match r.origin
    case NotRegistered => r.error == PlatformNotFound(c.platforms[i])
    case Executed =>
      && t in s.work.createdBy && s.work.createdBy[t] == pid && c.platforms[i] !in c.platforms[..i]
      && t in s.work.table.tasks && s.work.table.tasks[t].attemptCount > 0
      && (r.status, r.error) == (VerdictIn(s.work, t).status, VerdictIn(s.work, t).error)
    case _ => t in s.work.createdBy && (s.work.createdBy[t] != pid || c.platforms[i] in c.platforms[..i])
  }

  ghost predicate CallStoryOk(s: State, pid: nat)
    requires pid in s.calls
  {
    && (s.calls[pid].at.Running? ==> RunStoryOk(s, pid))
    && (forall i: nat :: i < |s.calls[pid].reports| && i < |s.calls[pid].platforms| ==> EntryOk(s, pid, i))
  }

  ghost predicate StoriesOk(s: State) {
    && (forall t :: t in s.work.table.tasks ==> TaskStoryOk(s, t))
    && (forall pid :: pid in s.calls ==> CallStoryOk(s, pid))
  }

  // ----- What a step leaves alone -----

  /** The stories of tasks at rest stay, and the tasks stay at rest. */
  ghost predicate Kept(s: State, s': State) {
    && s'.registered == s.registered
    && forall t :: t in s.work.table.tasks && !RunBy(s, t) ==> SameStory(s.work, s'.work, t) && !RunBy(s', t)
  }

  /** One call moved, and its entries stayed or grew. */
  predicate Moved(s: State, s': State, pid: nat) {
    && pid in s.calls && pid in s'.calls && s'.calls == s.calls[pid := s'.calls[pid]]
    && var c, c' := s.calls[pid], s'.calls[pid];
       && c'.contentID == c.contentID && c'.platforms == c.platforms && (Early(c') ==> Early(c))
       && |c.reports| <= |c'.reports| <= |c.platforms| && c'.reports[..|c.reports|] == c.reports
  }

  lemma EntryStays(s: State, s': State, pid: nat, i: nat)
    requires Kept(s, s') && StoriesOk(s) && pid in s.calls && pid in s'.calls
    requires i < |s.calls[pid].reports| <= |s'.calls[pid].reports| && i < |s.calls[pid].platforms|
    requires ReportOk(s, s.calls[pid], i)
    requires s'.calls[pid].platforms == s.calls[pid].platforms && s'.calls[pid].reports[i] == s.calls[pid].reports[i]
    ensures EntryOk(s', pid, i)
  {
    assert CallStoryOk(s, pid);
    assert EntryOk(s, pid, i);
    var r := s.calls[pid].reports[i];
    if r.origin.Executed? || r.origin.Existing? {
      assert TaskStoryOk(s, r.taskID);
      SameEnds(s.work, s'.work, r.taskID);
    }
    hide StoriesOk, CallStoryOk, Story, Agrees, EndIn;
  }

  lemma AuthorStays(s: State, s': State, pid: nat, t: string)
    requires Moved(s, s', pid) && t in s.work.table.tasks && AuthorOk(s, t) && s'.registered == s.registered
    requires t in s'.work.table.tasks && SamePair(s.work.table.tasks[t], s'.work.table.tasks[t])
    requires t in s'.work.createdBy && s'.work.createdBy[t] == s.work.createdBy[t]
    requires var c, c' := s.calls[pid], s'.calls[pid];
             c.at.Running? && c.at.run.taskID == t ==>
               (c'.at.Running? && c'.at.run.taskID == t) || s.work.table.tasks[t].platform in Handled(c')
    ensures AuthorOk(s', t)
  {
  }

  /** The step kept all stories, and changed none of a task at rest. */
  ghost predicate Onward(s: State, s': State) {
    StoriesOk(s') && Kept(s, s')
  }

  lemma MoverKeepsStories(s: State, s': State, pid: nat)
    requires ReportsOk(s) && StoriesOk(s) && Moved(s, s', pid) && Kept(s, s')
    requires forall t :: t in s'.work.table.tasks ==> TaskStoryOk(s', t)
    requires forall p :: p in s'.calls && s'.calls[p].at.Running? ==> RunStoryOk(s', p)
    requires forall i: nat :: |s.calls[pid].reports| <= i < |s'.calls[pid].reports| ==> EntryOk(s', pid, i)
    ensures Onward(s, s')
  {
    forall p | p in s'.calls ensures CallStoryOk(s', p) {
      forall i: nat | i < |s'.calls[p].reports| && i < |s'.calls[p].platforms| ensures EntryOk(s', p, i) {
        if p != pid || i < |s.calls[pid].reports| {
          assert CallReportsOk(s, s.calls[p]);
          assert ReportOk(s, s.calls[p], i);
          if p == pid { assert s'.calls[p].reports[i] == s'.calls[p].reports[..|s.calls[p].reports|][i]; }
          EntryStays(s, s', p, i);
        }
      }
    }
    hide TaskStoryOk, RunStoryOk, EntryOk, ReportOk, Kept, StoriesOk, CallStoryOk;
    StoriesMean(s');
  }

  lemma StoriesParts(s: State)
    requires StoriesOk(s)
    ensures forall t :: t in s.work.table.tasks ==> TaskStoryOk(s, t)
    ensures forall pid :: pid in s.calls ==> CallStoryOk(s, pid)
  {
  }

  lemma StoriesMean(s: State)
    requires forall t :: t in s.work.table.tasks ==> TaskStoryOk(s, t)
    requires forall pid :: pid in s.calls ==> CallStoryOk(s, pid)
    ensures StoriesOk(s)
  {
  }

  // ----- Moves outside the loop -----

  lemma QuietTasks(s: State, s': State, pid: nat)
    requires StoriesOk(s) && Moved(s, s', pid) && TaskQuiet(s, s', pid) && s'.registered == s.registered
    ensures Kept(s, s') && forall t :: t in s'.work.table.tasks ==> TaskStoryOk(s', t)
    ensures forall p :: p in s'.calls && s'.calls[p].at.Running? ==> RunStoryOk(s', p)
  {
    forall t | t in s'.work.table.tasks ensures TaskStoryOk(s', t) {
      assert TaskStoryOk(s, t);
      AuthorStays(s, s', pid, t);
    }
    forall p | p in s'.calls && s'.calls[p].at.Running? ensures RunStoryOk(s', p) { assert CallStoryOk(s, p); }
    forall t | t in s.work.table.tasks && !RunBy(s, t) ensures SameStory(s.work, s'.work, t) && !RunBy(s', t) {
      assert TaskStoryOk(s, t);
    }
    hide Story, RunStory, AuthorOk, EntryOk;
  }

  lemma QuietKeepsStories(s: State, s': State, pid: nat)
    requires ReportsOk(s) && StoriesOk(s) && Moved(s, s', pid) && TaskQuiet(s, s', pid)
    requires s'.registered == s.registered
    requires forall i: nat :: |s.calls[pid].reports| <= i < |s'.calls[pid].reports| ==> EntryOk(s', pid, i)
    ensures Onward(s, s')
  {
    QuietTasks(s, s', pid);
    MoverKeepsStories(s, s', pid);
    hide *;
  }

  /** The platforms before the current one have their tasks. */
  lemma HandledHaveTasks(s: State, pid: nat, i: nat)
    requires LocksOk(s) && TasksOk(s) && ReportsOk(s) && pid in s.calls && i < |s.calls[pid].reports|
    ensures var c := s.calls[pid];
            i < |c.platforms| &&
              (c.platforms[i] in s.registered ==> TaskExists(s.work.table, c.contentID, c.platforms[i]))
  {
    var c := s.calls[pid];
    assert CallReportsOk(s, c);
    assert ReportOk(s, c, i);
    if c.platforms[i] in s.registered { assert TaskReached(s.work.table, c.reports[i].taskID); }
  }

  // ----- The loop -----

  lemma RunningKept(s: State, pid: nat, o: Outcome)
    requires TasksOk(s) && StoriesOk(s) && pid in s.calls && s.calls[pid].at.Running? && GoodStep(s, pid, o)
    requires PostsStay(s.work, o.work, s.calls[pid].at.run.taskID)
    ensures forall u :: u in s.work.table.tasks && u != s.calls[pid].at.run.taskID ==> SameStory(s.work, o.work, u)
  {
    forall u | u in s.work.table.tasks && u != s.calls[pid].at.run.taskID ensures SameStory(s.work, o.work, u) {
      assert TaskStoryOk(s, u);
      TaskIsFiled(s, u);
      TouchesOneStory(s.work, o.work, s.calls[pid].at.run.taskID, u);
    }
    hide TasksOk, StoriesOk, Touches, WorkOk, SameStory, StepLedger;
  }

  /** A step of the loop, as the ledger and the stories see it. */
  ghost predicate ToldStep(s: State, pid: nat, o: Outcome)
    requires pid in s.calls && s.calls[pid].at.Running?
  {
    var c := s.calls[pid];
    && TasksOk(s) && StoriesOk(s) && PositionOk(s.registered, c)
    && GoodStep(s, pid, o) && PostsStay(s.work, o.work, c.at.run.taskID) && StepStory(c.at.run, o)
  }

  /** The shape of that step. */
  lemma RunningMoves(s: State, pid: nat, o: Outcome)
    requires pid in s.calls && s.calls[pid].at.Running? && ToldStep(s, pid, o)
    ensures var c, s' := s.calls[pid], RunningStep(s, pid, s.calls[pid], o);
            var c', t := s'.calls[pid], c.at.run.taskID;
            && Moved(s, s', pid) && s'.work == o.work && s'.registered == s.registered &&
               s'.work.createdBy == s.work.createdBy
            && s'.work.table.tasks.Keys == s.work.table.tasks.Keys
            && t in s.work.table.tasks && t in s.work.createdBy && s.work.createdBy[t] == pid
            && s.work.table.tasks[t].platform == Platform(c) && Platform(c) !in Handled(c)
            && SamePair(s.work.table.tasks[t], s'.work.table.tasks[t])
            && (o.Continue? ==> c' == c.(at := Running(o.run)) && o.run.taskID == t)
            && (o.Done? ==> c' == Reported(c, o.report) && o.report.taskID == t && o.report.origin.Executed?
                            && Platform(c) in Handled(c') && Story(s'.work, t))
  {
    hide TasksOk, StoriesOk, WorkOk, Story, Touches, RunLedger, StepLedger, StepStory, Handled, Platform;
    RunnerStands(s, pid);
    StepLeads(s, pid, o);
    SamePairs(s.work, o.work, s.calls[pid].at.run.taskID);
    if o.Done? { OneMoreHandled(s.calls[pid], o); }
  }

  /** Where a call in the loop stands. */
  lemma RunnerStands(s: State, pid: nat)
    requires TasksOk(s) && StoriesOk(s) && pid in s.calls && s.calls[pid].at.Running?
    ensures var c := s.calls[pid];
            var t := c.at.run.taskID;
            && t in s.work.table.tasks && t in s.work.createdBy && s.work.createdBy[t] == pid
            && s.work.table.tasks[t].platform == Platform(c) && Platform(c) !in Handled(c)
  {
    assert RunOk(s, pid) && CallStoryOk(s, pid);
    var c := s.calls[pid];
    RunLedgerTask(s.work, c.contentID, Platform(c), c.at.run);
    hide TasksOk, StoriesOk, RunLedger, RunStory, Handled, Platform, EntryOk;
  }

  /** Where the step leads. */
  lemma StepLeads(s: State, pid: nat, o: Outcome)
    requires pid in s.calls && s.calls[pid].at.Running? && GoodStep(s, pid, o) && StepStory(s.calls[pid].at.run, o)
    ensures var t := s.calls[pid].at.run.taskID;
            && o.work.createdBy == s.work.createdBy && Touches(s.work, o.work, t)
            && o.work.table.tasks.Keys == s.work.table.tasks.Keys
            && (o.Continue? ==> o.run.taskID == t)
            && (o.Done? ==> o.report.taskID == t && o.report.origin.Executed? && Story(o.work, t))
  {
    TouchesIdentity(s.work, o.work, s.calls[pid].at.run.taskID);
    hide Touches, WorkOk, Story, RunLedger, Settled, RunStory;
  }

  lemma OneMoreHandled(c: Call, o: Outcome)
    requires |c.reports| < |c.platforms| && o.Done?
    ensures Platform(c) in Handled(Reported(c, o.report))
  {
    assert Handled(Reported(c, o.report)) == Handled(c) + [Platform(c)];
  }

  lemma RunningTasks(s: State, pid: nat, o: Outcome, u: string)
    requires pid in s.calls && s.calls[pid].at.Running? && ToldStep(s, pid, o) && u in s.work.table.tasks
    ensures var s' := RunningStep(s, pid, s.calls[pid], o);
            && u in s'.work.table.tasks && TaskStoryOk(s', u)
            && (!RunBy(s, u) ==> SameStory(s.work, s'.work, u) && !RunBy(s', u))
  {
    hide TasksOk, StoriesOk, GoodStep, StepStory, Story, PostsStay, PositionOk, AuthorOk;
    StoriesParts(s);
    RunningMoves(s, pid, o);
    var s', t := RunningStep(s, pid, s.calls[pid], o), s.calls[pid].at.run.taskID;
    RunningKept(s, pid, o);
    if u != t && !RunBy(s, u) { StoryStays(s.work, s'.work, u); }
    SameTaskPair(s.work, s'.work, u);
    AuthorStays(s, s', pid, u);
  }

  lemma SameTaskPair(w: Work, w': Work, t: string)
    ensures SameStory(w, w', t) ==> SamePair(w.table.tasks[t], w'.table.tasks[t])
  {
  }

  /** The other loops, and this one if it goes on. */
  lemma RunningRuns(s: State, pid: nat, o: Outcome, p: nat)
    requires pid in s.calls && s.calls[pid].at.Running? && ToldStep(s, pid, o) && p in s.calls
    requires RunningStep(s, pid, s.calls[pid], o).calls[p].at.Running?
    ensures RunStoryOk(RunningStep(s, pid, s.calls[pid], o), p)
  {
    hide TasksOk, StoriesOk, GoodStep, Story, PostsStay, PositionOk, RunStory, AuthorOk, EntryOk, Handled, SameStory;
    RunningMoves(s, pid, o);
    if p != pid {
      StoriesParts(s);
      assert CallStoryOk(s, p);
      RunnerStands(s, p);
      RunningKept(s, pid, o);
      RunStoryStays(s.work, o.work, s.calls[p].at.run);
    } else {
      SameHandled(s.calls[pid], o);
    }
  }

  lemma SameHandled(c: Call, o: Outcome)
    ensures o.Continue? ==>
              var c' := c.(at := Running(o.run)); Handled(c') == Handled(c) && Platform(c') == Platform(c)
  {
  }

  /** The entry with which a call leaves the loop. */
  lemma RunningEntry(s: State, pid: nat, o: Outcome)
    requires pid in s.calls && s.calls[pid].at.Running? && ToldStep(s, pid, o) && o.Done?
    ensures EntryOk(RunningStep(s, pid, s.calls[pid], o), pid, |s.calls[pid].reports|)
  {
    RunningMoves(s, pid, o);
    hide TasksOk, StoriesOk, GoodStep, PostsStay, RecordOk, EndIn;
  }

  lemma RunningKeepsStories(s: State, pid: nat, o: Outcome)
    requires pid in s.calls && s.calls[pid].at.Running? && ToldStep(s, pid, o) && ReportsOk(s)
    ensures Onward(s, RunningStep(s, pid, s.calls[pid], o))
  {
    hide TasksOk, StoriesOk, GoodStep, Story, PostsStay, PositionOk, RunStory, EntryOk, ToldStep, TaskStoryOk,
         RunStoryOk, SameStory, ReportsOk;
    var s' := RunningStep(s, pid, s.calls[pid], o);
    RunningMoves(s, pid, o);
    ToldParts(s, pid, o);
    forall u | u in s'.work.table.tasks
      ensures TaskStoryOk(s', u) && (!RunBy(s, u) ==> SameStory(s.work, s'.work, u) && !RunBy(s', u))
    {
      RunningTasks(s, pid, o, u);
    }
    forall p | p in s'.calls && s'.calls[p].at.Running? ensures RunStoryOk(s', p) { RunningRuns(s, pid, o, p); }
    if o.Done? { RunningEntry(s, pid, o); }
    MoverKeepsStories(s, s', pid);
  }

  lemma ToldParts(s: State, pid: nat, o: Outcome)
    requires pid in s.calls && s.calls[pid].at.Running? && ToldStep(s, pid, o)
    ensures StoriesOk(s) && TasksOk(s)
  {
  }

  // ----- The other moves -----

  /** No earlier entry is about the platform of a task that is just made. */
  lemma FirstMention(s: State, pid: nat)
    requires LocksOk(s) && TasksOk(s) && ReportsOk(s) && pid in s.calls && OnPlatform(s.calls[pid])
    requires !TaskExists(s.work.table, s.calls[pid].contentID, Platform(s.calls[pid]))
    ensures Platform(s.calls[pid]) !in Handled(s.calls[pid])
  {
    var c := s.calls[pid];
    forall i: nat | i < |c.reports| ensures i < |c.platforms| && c.platforms[i] != Platform(c) {
      HandledHaveTasks(s, pid, i);
    }
    hide TasksOk, ReportsOk;
  }

  lemma CreateLeavesStory(w: Work, pid: nat, c: Call, id: string, t: string)
    requires id !in w.table.tasks && t in w.table.tasks && t in w.createdBy
    ensures SameStory(w, CreateStep(w, pid, c, id), t)
  {
  }

  lemma CreateStarts(w: Work, pid: nat, c: Call, id: string)
    requires !TaskExists(w.table, c.contentID, Platform(c))
    ensures var w' := CreateStep(w, pid, c, id);
            && w'.table.tasks.Keys == w.table.tasks.Keys + {id} && id in w'.createdBy && w'.createdBy[id] == pid
            && w'.table.tasks[id] == NewTask(id, c.contentID, Platform(c)) && RunStory(w', Run(id, 0, "", Count))
            && forall t :: t in w.createdBy && t != id ==> t in w'.createdBy && w'.createdBy[t] == w.createdBy[t]
  {
  }

  /** The step that makes a task and enters the loop. */
  ghost predicate Makes(s: State, s': State, pid: nat, id: string) {
    && StoriesOk(s) && pid in s.calls && s.calls[pid].at.MakeTask? && id !in s.work.table.tasks
    && var c := s.calls[pid];
       && !TaskExists(s.work.table, c.contentID, Platform(c)) && Platform(c) in s.registered
       && |c.reports| <= |c.platforms| && Platform(c) !in Handled(c)
       && s' == Put(s.(work := CreateStep(s.work, pid, c, id)), pid, c.(at := Running(Run(id, 0, "", Count))))
  }

  lemma MadeTasks(s: State, s': State, pid: nat, id: string, t: string)
    requires Makes(s, s', pid, id) && t in s'.work.table.tasks
    ensures TaskStoryOk(s', t) &&
            (t in s.work.table.tasks ==> SameStory(s.work, s'.work, t) && RunBy(s', t) == RunBy(s, t))
  {
    var c := s.calls[pid];
    StoriesParts(s);
    CreateStarts(s.work, pid, c, id);
    hide StoriesOk, CreateStep, RunStory, Story, SameStory, Platform, Handled, TaskExists, CallStoryOk;
    if t != id {
      assert TaskStoryOk(s, t);
      CreateLeavesStory(s.work, pid, c, id, t);
      SameTaskPair(s.work, s'.work, t);
      SameAuthor(s.work, s'.work, t);
      AuthorStays(s, s', pid, t);
      if !RunBy(s, t) { StoryStays(s.work, s'.work, t); }
    }
  }

  lemma SameAuthor(w: Work, w': Work, t: string)
    ensures SameStory(w, w', t) ==>
              t in w.createdBy && t in w'.createdBy && w'.createdBy[t] == w.createdBy[t] && t in w'.table.tasks
  {
  }

  lemma MadeRuns(s: State, s': State, pid: nat, id: string, p: nat)
    requires Makes(s, s', pid, id) && TasksOk(s) && p in s'.calls && s'.calls[p].at.Running?
    ensures RunStoryOk(s', p)
  {
    CreateStarts(s.work, pid, s.calls[pid], id);
    SameRunning(s.calls[pid], Run(id, 0, "", Count));
    hide TasksOk, CreateStep, RunStory, Story, SameStory, Platform, Handled, TaskExists, EntryOk;
    if p != pid {
      assert CallStoryOk(s, p);
      RunnerStands(s, p);
      CreateLeavesStory(s.work, pid, s.calls[pid], id, s.calls[p].at.run.taskID);
      RunStoryStays(s.work, s'.work, s.calls[p].at.run);
    }
  }

  lemma SameRunning(c: Call, run: Run)
    ensures Handled(c.(at := Running(run))) == Handled(c) && Platform(c.(at := Running(run))) == Platform(c)
  {
  }

  lemma MadeKeepsStories(s: State, s': State, pid: nat, id: string)
    requires Makes(s, s', pid, id) && TasksOk(s) && ReportsOk(s)
    ensures Onward(s, s')
  {
    MadeMoves(s, s', pid, id);
    hide Makes, TasksOk, ReportsOk, StoriesOk, SameStory, TaskStoryOk, RunStoryOk, EntryOk, RunBy, Moved;
    forall t | t in s'.work.table.tasks
      ensures TaskStoryOk(s', t)
      ensures t in s.work.table.tasks ==> SameStory(s.work, s'.work, t) && RunBy(s', t) == RunBy(s, t)
    {
      MadeTasks(s, s', pid, id, t);
    }
    forall p | p in s'.calls && s'.calls[p].at.Running? ensures RunStoryOk(s', p) { MadeRuns(s, s', pid, id, p); }
    MoverKeepsStories(s, s', pid);
  }

  lemma MadeMoves(s: State, s': State, pid: nat, id: string)
    requires Makes(s, s', pid, id)
    ensures StoriesOk(s) && Moved(s, s', pid) && s'.registered == s.registered
    ensures |s'.calls[pid].reports| == |s.calls[pid].reports|
    ensures s.work.table.tasks.Keys <= s'.work.table.tasks.Keys
  {
    hide StoriesOk, RunStory, Platform, Handled;
    CreateStarts(s.work, pid, s.calls[pid], id);
  }

  lemma Positioned(s: State, pid: nat)
    requires LocksOk(s) && pid in s.calls
    ensures PositionOk(s.registered, s.calls[pid])
  {
  }

  lemma MakeTaskKeepsStories(s: State, pid: nat, id: string)
    requires LocksOk(s) && TasksOk(s) && ReportsOk(s) && StoriesOk(s) && pid in s.calls && s.calls[pid].at.MakeTask?
    requires id !in s.work.table.tasks
    ensures Onward(s, MakeTaskStep(s, pid, s.calls[pid], id))
  {
    hide LocksOk, TasksOk, ReportsOk, StoriesOk, TaskExists, CreateStep, Handled, Platform;
    Positioned(s, pid);
    var c := s.calls[pid];
    var s' := MakeTaskStep(s, pid, c, id);
    if TaskExists(s.work.table, c.contentID, Platform(c)) {
      QuietKeepsStories(s, s', pid);
    } else {
      FirstMention(s, pid);
      MadeKeepsStories(s, s', pid, id);
    }
  }

  lemma NextPlatformKeepsStories(s: State, pid: nat)
    requires LocksOk(s) && ReportsOk(s) && StoriesOk(s) && pid in s.calls && s.calls[pid].at.NextPlatform?
    ensures Onward(s, Put(s, pid, NextPlatformStep(s.registered, s.calls[pid])))
  {
    Positioned(s, pid);
    hide LocksOk, ReportsOk, StoriesOk;
    QuietKeepsStories(s, Put(s, pid, NextPlatformStep(s.registered, s.calls[pid])), pid);
  }

  /** A call finds the task of another call, or its own one for an earlier mention of the platform. */
  lemma FoundAuthor(s: State, pid: nat, t: string)
    requires StoriesOk(s) && pid in s.calls && !s.calls[pid].at.Running? && t in s.work.table.tasks
    ensures t in s.work.createdBy
    ensures s.work.createdBy[t] != pid || s.work.table.tasks[t].platform in Handled(s.calls[pid])
  {
    assert TaskStoryOk(s, t);
    hide StoriesOk, Story, Handled;
  }

  lemma LookUpKeepsStories(s: State, pid: nat)
    requires LocksOk(s) && KeysOk(s) && TasksOk(s) && ReportsOk(s) && StoriesOk(s)
    requires pid in s.calls && s.calls[pid].at.LookUp?
    ensures Onward(s, Put(s, pid, LookUpStep(s.work.table, s.calls[pid])))
  {
    hide LocksOk, KeysOk, TasksOk, ReportsOk, StoriesOk, LookUpTask;
    Positioned(s, pid);
    FoundAtRest(s, pid);
    var c := s.calls[pid];
    var task := LookUpTask(s.work.table, c.contentID, Platform(c)).value;
    FoundAuthor(s, pid, task.id);
    QuietKeepsStories(s, Put(s, pid, LookUpStep(s.work.table, c)), pid);
  }

  lemma PassingKeepsStories(s: State, s': State, pid: nat)
    requires LocksOk(s) && ReportsOk(s) && StoriesOk(s) && TaskQuiet(s, s', pid) && s'.registered == s.registered
    requires var c, c' := s.calls[pid], s'.calls[pid];
             && c'.contentID == c.contentID && c'.platforms == c.platforms && c'.reports == c.reports
             && (Early(c') ==> Early(c))
    ensures Onward(s, s')
  {
    Positioned(s, pid);
    hide LocksOk, ReportsOk, StoriesOk;
    QuietKeepsStories(s, s', pid);
  }

  lemma EarlyMovesKeepStories(s: State, pid: nat)
    requires LocksOk(s) && ReportsOk(s) && StoriesOk(s) && pid in s.calls
    ensures var c := s.calls[pid];
            match c.at
            case Fetch => Onward(s, Put(s, pid, FetchStep(s.contents, c)))
            case Recheck(seen) => Onward(s, Put(s, pid, RecheckStep(s.contents, c, seen)))
            case TakeLock => Onward(s, TakeLockStep(s, pid, c))
            case _ => true
  {
    hide LocksOk, ReportsOk, StoriesOk, UpdateContent, LockGranted, GetContent, ContentStatus.CanTransitionTo;
    var c := s.calls[pid];
    match c.at
    case Fetch => PassingKeepsStories(s, Put(s, pid, FetchStep(s.contents, c)), pid);
    case Recheck(seen) => PassingKeepsStories(s, Put(s, pid, RecheckStep(s.contents, c, seen)), pid);
    case TakeLock => PassingKeepsStories(s, TakeLockStep(s, pid, c), pid);
    case _ =>
  }

  lemma LateMovesKeepStories(s: State, pid: nat, now: int, later: int)
    requires LocksOk(s) && ReportsOk(s) && StoriesOk(s) && pid in s.calls
    ensures var c := s.calls[pid];
            match c.at
            case ClaimKey => Onward(s, ClaimStep(s, pid, c, now, later))
            case FinalCheck => Onward(s, Put(s, pid, FinalCheckStep(s.contents, c)))
            case FinalWrite => Onward(s, FinalWriteStep(s, pid, c))
            case _ => true
  {
    hide LocksOk, ReportsOk, StoriesOk, Aggregate, UpdateContent, Claim;
    var c := s.calls[pid];
    match c.at
    case ClaimKey => PassingKeepsStories(s, ClaimStep(s, pid, c, now, later), pid);
    case FinalCheck => PassingKeepsStories(s, Put(s, pid, FinalCheckStep(s.contents, c)), pid);
    case FinalWrite => PassingKeepsStories(s, FinalWriteStep(s, pid, c), pid);
    case _ =>
  }

  lemma RunMoveKeepsStories(s: State, pid: nat, id: string, reply: Reply)
    requires LocksOk(s) && TasksOk(s) && ReportsOk(s) && StoriesOk(s) && pid in s.calls && s.calls[pid].at.Running?
    requires id !in s.work.attempts
    ensures var c := s.calls[pid];
            Onward(s, RunningStep(s, pid, c, RunStep(s.work, c.contentID, Platform(c), c.at.run, id, reply)))
  {
    var c := s.calls[pid];
    var o := RunStep(s.work, c.contentID, Platform(c), c.at.run, id, reply);
    Positioned(s, pid);
    RunnersStory(s, pid);
    StepWorks(s.work, c.contentID, Platform(c), c.at.run, id, reply);
    StepKeepsPosts(s.work, c.contentID, Platform(c), c.at.run, id, reply);
    StepKeepsStory(s.work, c.contentID, Platform(c), c.at.run, id, reply);
    RunningKeepsStories(s, pid, o);
    hide LocksOk, TasksOk, ReportsOk, StoriesOk, RunStep, RunLedger, RunStory, WorkOk, Touches, StepLedger, StepStory,
         PositionOk, Platform, RunningStep;
  }

  lemma RunnersStory(s: State, pid: nat)
    requires TasksOk(s) && StoriesOk(s) && pid in s.calls && s.calls[pid].at.Running?
    ensures var c := s.calls[pid];
            && WorkOk(s.work) && RunLedger(s.work, c.contentID, Platform(c), c.at.run) && RunStory(s.work, c.at.run)
            && c.at.run.taskID in s.work.table.tasks && s.work.table.tasks[c.at.run.taskID].id == c.at.run.taskID
  {
    assert RunOk(s, pid) && CallStoryOk(s, pid);
    var c := s.calls[pid];
    RunLedgerTask(s.work, c.contentID, Platform(c), c.at.run);
    assert TaskReached(s.work.table, c.at.run.taskID);
    hide StoriesOk, RunLedger, RunStory, EntryOk, Platform, Handled;
  }

  lemma MoveKeepsStories(s: State, pid: nat, now: int, later: int, id: string, reply: Reply)
    requires T.Inv(s) && StoriesOk(s) && pid in s.calls && id !in s.work.table.tasks && id !in s.work.attempts
    ensures Onward(s, MoveStep(s, pid, now, later, id, reply))
  {
    hide LocksOk, KeysOk, TasksOk, ReportsOk, StoriesOk, RunningStep, ClaimStep, MakeTaskStep, TakeLockStep,
         FinalWriteStep, LookUpStep, FetchStep, RecheckStep, NextPlatformStep, FinalCheckStep, RunStep;
    match s.calls[pid].at
    case NextPlatform => NextPlatformKeepsStories(s, pid);
    case LookUp => LookUpKeepsStories(s, pid);
    case MakeTask => MakeTaskKeepsStories(s, pid, id);
    case Running(_) => RunMoveKeepsStories(s, pid, id, reply);
    case Returned(_) => StandingStill(s);
    case _ =>
      EarlyMovesKeepStories(s, pid);
      LateMovesKeepStories(s, pid, now, later);
  }

  lemma StandingStill(s: State)
    requires StoriesOk(s)
    ensures Onward(s, s)
  {
    StoriesParts(s);
    forall t | t in s.work.table.tasks && !RunBy(s, t) ensures SameStory(s.work, s.work, t) {
      assert TaskStoryOk(s, t);
    }
    hide StoriesOk, Story;
  }

  lemma ClockDoesNotMatter(s: State, now: int, s': State)
    requires Onward(s.(now := now), s')
    ensures Onward(s, s')
  {
    var t := s.(now := now);
    forall u | u in s.work.table.tasks && !RunBy(s, u) ensures SameStory(s.work, s'.work, u) && !RunBy(s', u) {
      assert !RunBy(t, u);
    }
    hide SameStory, StoriesOk;
  }

  lemma FrameKeepsStories(s: State, s': State)
    requires ReportsOk(s) && StoriesOk(s) && T.Framed(s, s')
    ensures Onward(s, s')
  {
    StoriesParts(s);
    forall t | t in s'.work.table.tasks ensures TaskStoryOk(s', t) { assert TaskStoryOk(s, t); }
    forall p | p in s'.calls ensures CallStoryOk(s', p) {
      if p in s.calls {
        assert CallStoryOk(s, p);
        forall i: nat | i < |s'.calls[p].reports| && i < |s'.calls[p].platforms| ensures EntryOk(s', p, i) {
          assert EntryOk(s, p, i);
        }
      }
    }
    hide Story, RunStory, ReportsOk;
  }

  lemma {:induction false} StoriesKept(s: State, step: Step)
    requires T.Inv(s) && StoriesOk(s)
    ensures Onward(s, Next(s, step))
  {
    hide LocksOk, KeysOk, TasksOk, ReportsOk, StoriesOk, MoveStep;
    if Enabled(s, step) {
      if step.Move? {
        T.ClockIsFramed(s, step.later);
        FrameKeepsStories(s, s.(now := step.later));
        MoveKeepsStories(s.(now := step.later), step.pid, step.now, step.later, step.id, step.reply);
        ClockDoesNotMatter(s, step.later, Next(s, step));
      } else {
        T.OthersAreFramed(s, step);
        FrameKeepsStories(s, Next(s, step));
      }
    } else {
      StandingStill(s);
    }
  }

  lemma {:induction false} StoriesAlways(registered: set<string>, now: int, steps: seq<Step>)
    ensures T.Inv(RunFrom(Initial(registered, now), steps)) && StoriesOk(RunFrom(Initial(registered, now), steps))
  {
    T.InvAlways(registered, now, steps);
    if steps != [] {
      var before := RunFrom(Initial(registered, now), steps[..|steps| - 1]);
      StoriesAlways(registered, now, steps[..|steps| - 1]);
      StoriesKept(before, steps[|steps| - 1]);
    }
    hide T.Inv, Next;
  }

  /** In every run: an attempt that is not completed is the one in progress, under its number, of a task that a call is
      running, and is stored as processing without an error. */
  lemma {:induction false} OpenAttempts(registered: set<string>, now: int, steps: seq<Step>, id: string)
    requires id in RunFrom(Initial(registered, now), steps).work.attempts
    ensures var s := RunFrom(Initial(registered, now), steps);
            var a := s.work.attempts[id];
            a.completed ||
            (RunBy(s, a.taskID) &&
             var run := s.calls[s.work.createdBy[a.taskID]].at.run;
             && Midway(run.at) && run.attemptID == id
             && a == Attempt(id, run.taskID, run.attempt + 1, Processing, false, NoMessage))
  {
    var s := RunFrom(Initial(registered, now), steps);
    StoriesAlways(registered, now, steps);
    hide RunFrom, Initial, LocksOk, KeysOk, ReportsOk;
    AttemptOfTask(s, id);
    var t := s.work.attempts[id].taskID;
    if RunBy(s, t) {
      OpenInRun(s, s.work.createdBy[t], id);
    } else {
      StoriesParts(s);
      assert TaskStoryOk(s, t);
      OpenAtRest(s.work, t, id);
    }
    hide TasksOk, StoriesOk, Story, Traced;
  }

  lemma AttemptOfTask(s: State, id: string)
    requires TasksOk(s) && id in s.work.attempts
    ensures Traced(s.work, id)
  {
    hide Traced;
  }

  lemma OpenAtRest(w: Work, t: string, id: string)
    requires Story(w, t) && id in w.attempts && Traced(w, id) && w.attempts[id].taskID == t
    ensures w.attempts[id].completed
  {
    assert RecordOk(w, t, w.attempts[id].number - 1);
    hide EndIn;
  }

  lemma OpenInRun(s: State, pid: nat, id: string)
    requires TasksOk(s) && StoriesOk(s) && pid in s.calls && s.calls[pid].at.Running? && id in s.work.attempts
    requires Traced(s.work, id) && s.work.attempts[id].taskID == s.calls[pid].at.run.taskID
    ensures var a, run := s.work.attempts[id], s.calls[pid].at.run;
            a.completed ||
            (Midway(run.at) && run.attemptID == id &&
             a == Attempt(id, run.taskID, run.attempt + 1, Processing, false, NoMessage))
  {
    RunnersStory(s, pid);
    var c := s.calls[pid];
    hide TasksOk, StoriesOk, WorkOk;
    OpenInLedger(s.work, c.contentID, Platform(c), c.at.run, id);
  }

  lemma OpenInLedger(w: Work, contentID: string, platform: string, run: Run, id: string)
    requires RunLedger(w, contentID, platform, run) && RunStory(w, run)
    requires id in w.attempts && Traced(w, id) && w.attempts[id].taskID == run.taskID
    ensures var a := w.attempts[id];
            a.completed ||
            (Midway(run.at) && run.attemptID == id &&
             a == Attempt(id, run.taskID, run.attempt + 1, Processing, false, NoMessage))
  {
    var i: nat := w.attempts[id].number - 1;
    if i < run.attempt {
      assert Closed(w, run.taskID, i, PublishTaskStatus.Failed);
    } else if Midway(run.at) {
      assert InProgress(w, run.taskID, run.attempt);
    }
    hide RunTask, RunCounts, Rejected, Says;
  }

  /** In every run: a task stored as retrying is run by a call, and the error stored with it is the one recorded with
      the last attempt counted before the one in progress, which was refused. */
  lemma {:induction false} RetryingTellsWhy(registered: set<string>, now: int, steps: seq<Step>, t: string)
    requires t in RunFrom(Initial(registered, now), steps).work.table.tasks
    requires RunFrom(Initial(registered, now), steps).work.table.tasks[t].status == Retrying
    ensures var s := RunFrom(Initial(registered, now), steps);
            && RunBy(s, t) && s.calls[s.work.createdBy[t]].at.run.attempt > 0
            && exists id :: RefusedAs(s.work, t, id, s.calls[s.work.createdBy[t]].at.run.attempt)
  {
    var s := RunFrom(Initial(registered, now), steps);
    StoriesAlways(registered, now, steps);
    RetryingIsRun(s, t);
    var c := s.calls[s.work.createdBy[t]];
    RunnersStory(s, s.work.createdBy[t]);
    RetryingInLedger(s.work, c.contentID, Platform(c), c.at.run);
    hide RunFrom, Initial, T.Inv, StoriesOk, RunLedger, RunStory, WorkOk;
  }

  /** The attempt of this number ended as failed, with the error that the row of its task tells. */
  predicate RefusedAs(w: Work, t: string, id: string, number: nat) {
    t in w.table.tasks && w.table.tasks[t].error.Cause? &&
    id in w.attempts &&
    w.attempts[id] == Attempt(id, t, number, PublishTaskStatus.Failed, true, w.table.tasks[t].error)
  }

  lemma RetryingIsRun(s: State, t: string)
    requires TasksOk(s) && StoriesOk(s) && t in s.work.table.tasks && s.work.table.tasks[t].status == Retrying
    ensures RunBy(s, t)
  {
    StoriesParts(s);
    assert TaskStoryOk(s, t);
    hide TasksOk, StoriesOk, RecordOk;
  }

  lemma RetryingInLedger(w: Work, contentID: string, platform: string, run: Run)
    requires RunLedger(w, contentID, platform, run) && RunStory(w, run)
    requires run.taskID in w.table.tasks && w.table.tasks[run.taskID].status == Retrying
    ensures run.attempt > 0 && exists id :: RefusedAs(w, run.taskID, id, run.attempt)
  {
    var i: nat := run.attempt - 1;
    assert Rejected(w, run.taskID, i) && Filed(w, run.taskID, i);
    assert Closed(w, run.taskID, i, PublishTaskStatus.Failed);
    assert RefusedAs(w, run.taskID, Opened(w, run.taskID)[i], run.attempt);
    hide RunCounts;
  }
}
