/** The retry loop of internal/publish/service.go as a function of what the adapter will answer. */
module Retry {
  import opened Contracts
  import PT = PublishTables

  datatype PublishReply =
    | Accepted(result: PT.PublishResult)
    | PlatformError(text: string, retryable: bool)
    | OtherError(text: string)

  /** Everything an adapter will ever answer: the k-th call of each operation gets the k-th answer. */
  datatype Script = Script(
    validate: nat -> Option<string>,
    upload: nat -> Option<string>,
    publish: nat -> PublishReply)

  /** How often each operation of an adapter has been called. */
  datatype Talk = Talk(validated: nat, uploaded: nat, published: nat)

  /** How one attempt ends. */
  datatype AttemptEnd =
    | Invalid(cause: string)
    | NotUploaded(cause: string)
    | Posted(result: PT.PublishResult)
    | Refused(cause: string, retryable: bool)

  /** The end of attempt j (counted from 0) of a loop that starts when the adapter stands at `from`. Attempts
      before the last one went all the way to Publish, so each operation has been called j times since. */
  function EndOf(script: Script, from: Talk, j: nat): AttemptEnd {
    match script.validate(from.validated + j)
    case Some(cause) => Invalid(cause)
    case None =>
      (match script.upload(from.uploaded + j)
       case Some(cause) => NotUploaded(cause)
       case None =>
         (match script.publish(from.published + j)
          case Accepted(result) => Posted(result)
          case PlatformError(text, retryable) => Refused(text, retryable)
          case OtherError(text) => Refused(text, false)))
  }

  predicate Retries(e: AttemptEnd) {
    e.Refused? && e.retryable
  }

  /** The number of attempts of a loop that has reached attempt j: up to and including the first one that does
      not call for a retry, or the last one allowed. */
  function Attempts(script: Script, from: Talk, maxRetries: int, j: nat): (n: nat)
    requires j <= maxRetries
    ensures j < n <= maxRetries + 1
    ensures forall i :: j <= i < n - 1 ==> Retries(EndOf(script, from, i))
    ensures Retries(EndOf(script, from, n - 1)) ==> n == maxRetries + 1
    decreases maxRetries - j
  {
    if Retries(EndOf(script, from, j)) && j < maxRetries then Attempts(script, from, maxRetries, j + 1) else j + 1
  }

  /** Without any attempt allowed there is none. */
  function AttemptCount(script: Script, from: Talk, maxRetries: int): nat {
    if maxRetries < 0 then 0 else Attempts(script, from, maxRetries, 0)
  }

  /** The three properties of Attempts leave no other number. */
  lemma {:induction false} AttemptsUnique(script: Script, from: Talk, maxRetries: int, j: nat, n: nat)
    requires j < n <= maxRetries + 1
    requires forall i :: j <= i < n - 1 ==> Retries(EndOf(script, from, i))
    requires Retries(EndOf(script, from, n - 1)) ==> n == maxRetries + 1
    ensures n == Attempts(script, from, maxRetries, j)
    decreases n - j
  {
    if j + 1 < n { AttemptsUnique(script, from, maxRetries, j + 1, n); }
  }

  // ----- What the caller is told -----

  datatype RetryResult = RetryResult(result: Option<PT.PublishResult>, status: PublishTaskStatus, error: PT.Message)

  /** The verdict of the last attempt; a retryable refusal there means the retries are used up. */
  function Verdict(e: AttemptEnd, maxRetries: int): RetryResult {
    match e
    case Invalid(cause) => RetryResult(None, PublishTaskStatus.Failed, PT.ValidationFailed(cause))
    case NotUploaded(cause) => RetryResult(None, PublishTaskStatus.Failed, PT.UploadFailed(cause))
    case Posted(result) => RetryResult(Some(result), Succeeded, PT.NoMessage)
    case Refused(cause, false) => RetryResult(None, PublishTaskStatus.Failed, PT.PermanentFailure(cause))
    case Refused(cause, true) => RetryResult(None, Dead, PT.RetriesExhausted(maxRetries, cause))
  }

  function Told(script: Script, from: Talk, maxRetries: int): RetryResult {
    var n := AttemptCount(script, from, maxRetries);
    if n == 0 then RetryResult(None, PublishTaskStatus.Failed, PT.LoopExited)
    else Verdict(EndOf(script, from, n - 1), maxRetries)
  }

  /** How often the adapter's operations have been called after the loop. */
  function TalkAfter(script: Script, from: Talk, n: nat): Talk {
    if n == 0 then from
    else
      var e := EndOf(script, from, n - 1);
      Talk(from.validated + n,
           from.uploaded + (if e.Invalid? then n - 1 else n),
           from.published + (if e.Invalid? || e.NotUploaded? then n - 1 else n))
  }

  // ----- What is stored -----

  /** A status write that the transition table refuses is dropped. */
  function Wrote(row: PT.Task, status: PublishTaskStatus, error: PT.Message): PT.Task {
    if row.status.CanTransitionTo(status) then row.(status := status, error := error) else row
  }

  /** The stored table with one task's row replaced. */
  function WithRow(t: PT.TaskTable, row: PT.Task, id: string): PT.TaskTable {
    t.(tasks := t.tasks[id := row])
  }

  lemma UpdateWritesRow(t: PT.TaskTable, id: string, status: PublishTaskStatus, error: PT.Message)
    requires id in t.tasks
    ensures PT.UpdateTask(t, id, status, error) == WithRow(t, Wrote(t.tasks[id], status, error), id)
    ensures id in WithRow(t, Wrote(t.tasks[id], status, error), id).tasks
    ensures Entered(t.tasks[id], status) == if PT.UpdateTaskError(t, id, status) == None then [status] else []
  {
    hide PublishTaskStatus.CanTransitionTo;
    if PT.UpdateTaskError(t, id, status) != None {
      assert t.tasks[id := t.tasks[id]] == t.tasks;
    }
  }

  lemma WithRowTwice(t: PT.TaskTable, row: PT.Task, row': PT.Task, id: string)
    ensures WithRow(WithRow(t, row, id), row', id) == WithRow(t, row', id)
  {
    assert t.tasks[id := row][id := row'] == t.tasks[id := row'];
  }

  lemma WithRowHolds(t: PT.TaskTable, row: PT.Task, id: string)
    ensures id in WithRow(t, row, id).tasks && WithRow(t, row, id).tasks[id] == row
  {
  }

  function Counted(row: PT.Task): PT.Task {
    row.(attemptCount := row.attemptCount + 1)
  }

  /** Counting and marking one after the other begins the attempt. */
  lemma BeginningRow(t: PT.TaskTable, row: PT.Task, id: string)
    ensures id in WithRow(t, Counted(row), id).tasks && WithRow(t, Counted(row), id).tasks[id] == Counted(row)
    ensures Entered(Counted(row), Processing) == Entered(row, Processing)
    ensures WithRow(WithRow(t, Counted(row), id), Wrote(Counted(row), Processing, PT.NoMessage), id)
            == WithRow(t, Begun(row), id)
  {
    WithRowTwice(t, Counted(row), Begun(row), id);
  }

  /** A second write to a begun row leaves no trace of the first. */
  lemma BegunRow(t: PT.TaskTable, row: PT.Task, id: string)
    ensures WithRow(t, Begun(row), id).tasks[id] == Begun(row)
    ensures forall row' :: WithRow(WithRow(t, Begun(row), id), row', id) == WithRow(t, row', id)
  {
    forall row' ensures WithRow(WithRow(t, Begun(row), id), row', id) == WithRow(t, row', id) {
      WithRowTwice(t, Begun(row), row', id);
    }
  }

  lemma WithSameRow(t: PT.TaskTable, id: string)
    requires id in t.tasks
    ensures WithRow(t, t.tasks[id], id) == t
  {
    assert t.tasks[id := t.tasks[id]] == t.tasks;
  }

  function Begun(row: PT.Task): PT.Task {
    Wrote(Counted(row), Processing, PT.NoMessage)
  }

  /** The attempt is followed by another one. */
  predicate GoesOn(e: AttemptEnd, j: nat, maxRetries: int) {
    Retries(e) && j < maxRetries
  }

  /** The stored task after an attempt that ended in e. */
  function Ended(row: PT.Task, e: AttemptEnd, goesOn: bool, maxRetries: int): PT.Task {
    if goesOn && e.Refused? then Wrote(Begun(row), Retrying, PT.Cause(e.cause))
    else Wrote(Begun(row), Verdict(e, maxRetries).status, Verdict(e, maxRetries).error)
  }

  /** The statuses that a write adds to a task's history. */
  function Entered(row: PT.Task, status: PublishTaskStatus): seq<PublishTaskStatus> {
    if row.status.CanTransitionTo(status) then [status] else []
  }

  /** The statuses entered during an attempt that ended in e. */
  function PathOf(row: PT.Task, e: AttemptEnd, goesOn: bool, maxRetries: int): seq<PublishTaskStatus> {
    Entered(row, Processing) + Entered(Begun(row), if goesOn then Retrying else Verdict(e, maxRetries).status)
  }

  /** Two writes one after the other walk the path of the attempt. */
  lemma PathInTwoSteps(history: seq<PublishTaskStatus>, row: PT.Task, e: AttemptEnd, goesOn: bool, maxRetries: int)
    ensures history + Entered(row, Processing)
            + Entered(Begun(row), if goesOn then Retrying else Verdict(e, maxRetries).status)
         == history + PathOf(row, e, goesOn, maxRetries)
  {
    hide Entered, Begun, Verdict;
  }

  /** The statuses entered before attempt j starts. */
  function PathAt(row: PT.Task, script: Script, from: Talk, maxRetries: int, j: nat): seq<PublishTaskStatus> {
    if j == 0 then []
    else
      PathAt(row, script, from, maxRetries, j - 1)
      + PathOf(RowAt(row, script, from, maxRetries, j - 1), EndOf(script, from, j - 1), true, maxRetries)
  }

  /** The statuses entered by a loop of n attempts. */
  function PathAfter(row: PT.Task, script: Script, from: Talk, maxRetries: int, n: nat): seq<PublishTaskStatus> {
    if n == 0 then []
    else
      PathAt(row, script, from, maxRetries, n - 1)
      + PathOf(RowAt(row, script, from, maxRetries, n - 1), EndOf(script, from, n - 1), false, maxRetries)
  }

  /** The stored task when attempt j starts. */
  function RowAt(row: PT.Task, script: Script, from: Talk, maxRetries: int, j: nat): PT.Task {
    if j == 0 then row
    else Ended(RowAt(row, script, from, maxRetries, j - 1), EndOf(script, from, j - 1), true, maxRetries)
  }

  /** The stored task after a loop of n attempts. */
  function RowAfter(row: PT.Task, script: Script, from: Talk, maxRetries: int, n: nat): PT.Task {
    if n == 0 then row
    else Ended(RowAt(row, script, from, maxRetries, n - 1), EndOf(script, from, n - 1), false, maxRetries)
  }

  function AttemptMessage(e: AttemptEnd): PT.Message {
    match e
    case Invalid(cause) => PT.ValidationFailed(cause)
    case NotUploaded(cause) => PT.UploadFailed(cause)
    case Posted(_) => PT.NoMessage
    case Refused(cause, _) => PT.Cause(cause)
  }

  /** The closed record of attempt j. */
  function Record(id: string, taskID: string, e: AttemptEnd, j: nat): PT.Attempt {
    PT.Attempt(id, taskID, j + 1, if e.Posted? then Succeeded else PublishTaskStatus.Failed, true, AttemptMessage(e))
  }

  /** The id drawn for attempt j by a loop whose first draw is number `first`. */
  function Drawn(ids: nat -> string, first: nat, j: nat): string {
    ids(first + j)
  }

  /** The attempt store after n attempts, whose ids are the n draws from `first` on. */
  function RecordsAfter(t: PT.AttemptTable, taskID: string, ids: nat -> string, first: nat,
                        script: Script, from: Talk, n: nat): PT.AttemptTable {
    if n == 0 then t
    else
      var id := Drawn(ids, first, n - 1);
      RecordsAfter(t, taskID, ids, first, script, from, n - 1)
      [id := Record(id, taskID, EndOf(script, from, n - 1), n - 1)]
  }

  lemma ClosedRecord(t: PT.AttemptTable, taskID: string, id: string, e: AttemptEnd, j: nat)
    ensures PT.CompleteAttempt(PT.CreateAttempt(t, taskID, j + 1, id), id,
                               if e.Posted? then Succeeded else PublishTaskStatus.Failed, AttemptMessage(e))
         == t[id := Record(id, taskID, e, j)]
  {
  }

  /** The post store after an attempt that ended in e; `id` is the draw for a new post. */
  function PostsWith(t: PT.PostTable, taskID: string, platform: string, e: AttemptEnd, id: string): PT.PostTable {
    if e.Posted? then PT.CreatePost(t, taskID, platform, e.result, id) else t
  }

  function PostDraws(t: PT.PostTable, taskID: string, e: AttemptEnd): nat {
    if e.Posted? && taskID !in t then 1 else 0
  }

  /** The post store after n attempts: the draw after the attempts' ids names a new post. */
  function PostsAfter(t: PT.PostTable, taskID: string, platform: string, ids: nat -> string, first: nat,
                      script: Script, from: Talk, n: nat): PT.PostTable {
    if n == 0 then t else PostsWith(t, taskID, platform, EndOf(script, from, n - 1), ids(first + n))
  }

  function DrawsAfter(t: PT.PostTable, taskID: string, first: nat, script: Script, from: Talk, n: nat): nat {
    first + n + (if n == 0 then 0 else PostDraws(t, taskID, EndOf(script, from, n - 1)))
  }

  // ----- One turn of the loop -----

  lemma LoopStarts(t: PT.TaskTable, row: PT.Task, id: string, script: Script, from: Talk, maxRetries: int)
    requires id in t.tasks && t.tasks[id] == row
    ensures WithRow(t, RowAt(row, script, from, maxRetries, 0), id) == t
  {
    WithSameRow(t, id);
  }

  /** The adapter's answers from where it stands now are the answers of attempt j. */
  lemma TalkTurns(script: Script, from: Talk, j: nat)
    ensures var now := Talk(from.validated + j, from.uploaded + j, from.published + j);
            && EndOf(script, now, 0) == EndOf(script, from, j)
            && TalkAfter(script, now, 1) == TalkAfter(script, from, j + 1)
            && (Retries(EndOf(script, from, j)) ==>
                  TalkAfter(script, now, 1)
                    == Talk(from.validated + j + 1, from.uploaded + j + 1, from.published + j + 1))
  {
  }

  lemma LoopTurns(script: Script, from: Talk, maxRetries: int, j: nat)
    requires j <= maxRetries && AttemptCount(script, from, maxRetries) == Attempts(script, from, maxRetries, j)
    ensures var e := EndOf(script, from, j);
            var now := Talk(from.validated + j, from.uploaded + j, from.published + j);
            && EndOf(script, now, 0) == e
            && (GoesOn(e, j, maxRetries) ==>
                  && AttemptCount(script, from, maxRetries) == Attempts(script, from, maxRetries, j + 1)
                  && TalkAfter(script, now, 1)
                     == Talk(from.validated + j + 1, from.uploaded + j + 1, from.published + j + 1))
            && (!GoesOn(e, j, maxRetries) ==>
                  && AttemptCount(script, from, maxRetries) == j + 1
                  && Told(script, from, maxRetries) == Verdict(e, maxRetries)
                  && TalkAfter(script, now, 1) == TalkAfter(script, from, j + 1))
  {
    hide Verdict, EndOf, TalkAfter;
    TalkTurns(script, from, j);
  }

  /** The row and the path after attempt j. */
  lemma LoopRows(t: PT.TaskTable, row: PT.Task, id: string, script: Script, from: Talk, maxRetries: int, j: nat,
                 history: seq<PublishTaskStatus>)
    ensures var e := EndOf(script, from, j);
            var rowNow := RowAt(row, script, from, maxRetries, j);
            var pathNow := PathAt(row, script, from, maxRetries, j);
            && WithRow(t, rowNow, id).tasks[id] == rowNow
            && (forall row' :: WithRow(WithRow(t, rowNow, id), row', id) == WithRow(t, row', id))
            && RowAt(row, script, from, maxRetries, j + 1) == Ended(rowNow, e, true, maxRetries)
            && RowAfter(row, script, from, maxRetries, j + 1) == Ended(rowNow, e, false, maxRetries)
            && history + pathNow + PathOf(rowNow, e, true, maxRetries)
               == history + PathAt(row, script, from, maxRetries, j + 1)
            && history + pathNow + PathOf(rowNow, e, false, maxRetries)
               == history + PathAfter(row, script, from, maxRetries, j + 1)
  {
    hide Ended, PathOf, EndOf;
    var rowNow := RowAt(row, script, from, maxRetries, j);
    forall row' ensures WithRow(WithRow(t, rowNow, id), row', id) == WithRow(t, row', id) {
      WithRowTwice(t, rowNow, row', id);
    }
  }

  lemma LoopStores(t: PT.AttemptTable, posts: PT.PostTable, taskID: string, platform: string, ids: nat -> string,
                   first: nat, script: Script, from: Talk, maxRetries: int, j: nat)
    ensures var e := EndOf(script, from, j);
            && RecordsAfter(t, taskID, ids, first, script, from, j)
                 [ids(first + j) := Record(ids(first + j), taskID, e, j)]
            == RecordsAfter(t, taskID, ids, first, script, from, j + 1)
            && PostsWith(posts, taskID, platform, e, ids(first + j + 1))
               == PostsAfter(posts, taskID, platform, ids, first, script, from, j + 1)
            && (GoesOn(e, j, maxRetries) ==> PostsWith(posts, taskID, platform, e, ids(first + j + 1)) == posts)
            && (GoesOn(e, j, maxRetries) ==> PostDraws(posts, taskID, e) == 0)
            && first + j + 1 + PostDraws(posts, taskID, e) == DrawsAfter(posts, taskID, first, script, from, j + 1)
  {
    hide EndOf;
  }

  // ----- The ledger -----

  /** The status a finished loop leaves in the store: what was told, except that Dead is refused. */
  function Stored(v: RetryResult): (PublishTaskStatus, PT.Message) {
    if v.status == Dead then (Processing, PT.NoMessage) else (v.status, v.error)
  }

  lemma {:induction false} RowAtRunning(row: PT.Task, script: Script, from: Talk, maxRetries: int, j: nat)
    requires row.status.CanTransitionTo(Processing) && forall i :: 0 <= i < j ==> Retries(EndOf(script, from, i))
    ensures RowAt(row, script, from, maxRetries, j).attemptCount == row.attemptCount + j
    ensures j > 0 ==> RowAt(row, script, from, maxRetries, j).status == Retrying
    ensures SameTask(row, RowAt(row, script, from, maxRetries, j))
  {
    if j > 0 { RowAtRunning(row, script, from, maxRetries, j - 1); }
  }

  /** k rounds of processing followed by retrying. */
  function Rounds(k: nat): seq<PublishTaskStatus> {
    if k == 0 then [] else Rounds(k - 1) + [Processing, Retrying]
  }

  /** An attempt that goes on walks one round. */
  lemma OneRound(row: PT.Task, e: AttemptEnd, maxRetries: int)
    requires row.status.CanTransitionTo(Processing)
    ensures PathOf(row, e, true, maxRetries) == [Processing, Retrying]
  {
  }

  lemma {:induction false} PathAtRunning(row: PT.Task, script: Script, from: Talk, maxRetries: int, j: nat)
    requires row.status.CanTransitionTo(Processing) && forall i :: 0 <= i < j ==> Retries(EndOf(script, from, i))
    ensures PathAt(row, script, from, maxRetries, j) == Rounds(j)
  {
    hide EndOf, Retries, PathOf, RowAt, PublishTaskStatus.CanTransitionTo;
    if j > 0 {
      PathAtRunning(row, script, from, maxRetries, j - 1);
      RowAtProcesses(row, script, from, maxRetries, j - 1);
      OneRound(RowAt(row, script, from, maxRetries, j - 1), EndOf(script, from, j - 1), maxRetries);
    }
  }

  /** Before each attempt the stored task may move to processing. */
  lemma RowAtProcesses(row: PT.Task, script: Script, from: Talk, maxRetries: int, j: nat)
    requires row.status.CanTransitionTo(Processing) && forall i :: 0 <= i < j ==> Retries(EndOf(script, from, i))
    ensures RowAt(row, script, from, maxRetries, j).status.CanTransitionTo(Processing)
  {
    RowAtRunning(row, script, from, maxRetries, j);
    hide EndOf, Ended;
  }

  /** The accepted status writes are n - 1 rounds of processing and retrying, processing once more, and the
      told status, which the table refuses if it is Dead. */
  lemma {:induction false} AcceptedWrites(row: PT.Task, script: Script, from: Talk, maxRetries: int)
    requires maxRetries >= 0 && row.status.CanTransitionTo(Processing)
    ensures var n := AttemptCount(script, from, maxRetries);
            var told := Told(script, from, maxRetries).status;
            PathAfter(row, script, from, maxRetries, n) ==
              Rounds(n - 1) + [Processing] + (if told == Dead then [] else [told])
  {
    hide EndOf, RowAt, PathAt, PathOf, Verdict, Attempts, PublishTaskStatus.CanTransitionTo, Retries;
    var n := AttemptCount(script, from, maxRetries);
    PathAtRunning(row, script, from, maxRetries, n - 1);
    RowAtProcesses(row, script, from, maxRetries, n - 1);
    LastPath(RowAt(row, script, from, maxRetries, n - 1), EndOf(script, from, n - 1), maxRetries);
  }

  lemma LastPath(row: PT.Task, e: AttemptEnd, maxRetries: int)
    requires row.status.CanTransitionTo(Processing)
    ensures var told := Verdict(e, maxRetries).status;
            PathOf(row, e, false, maxRetries) == [Processing] + (if told == Dead then [] else [told])
  {
  }

  predicate SameTask(row: PT.Task, row': PT.Task) {
    row'.id == row.id && row'.contentID == row.contentID && row'.platform == row.platform && row'.policy == row.policy
  }

  /** Stored and told agree, and the attempt count rose by the number of attempts. The one difference: a loop
      that uses up its retries tells Dead and leaves Processing without an error. */
  lemma {:induction false} StoredAgreesWithTold(row: PT.Task, script: Script, from: Talk, maxRetries: int)
    requires maxRetries >= 0 && row.status.CanTransitionTo(Processing)
    ensures var n := AttemptCount(script, from, maxRetries);
            var row' := RowAfter(row, script, from, maxRetries, n);
            && 1 <= n <= maxRetries + 1
            && SameTask(row, row') && row'.attemptCount == row.attemptCount + n
            && (row'.status, row'.error) == Stored(Told(script, from, maxRetries))
  {
    hide EndOf, RowAt, PublishTaskStatus.CanTransitionTo, Ended, Stored, Verdict;
    var n := AttemptCount(script, from, maxRetries);
    RowAtRunning(row, script, from, maxRetries, n - 1);
    RowAtProcesses(row, script, from, maxRetries, n - 1);
    LastRow(RowAt(row, script, from, maxRetries, n - 1), EndOf(script, from, n - 1), maxRetries);
  }

  /** The row that the last attempt leaves. */
  lemma LastRow(row: PT.Task, e: AttemptEnd, maxRetries: int)
    requires row.status.CanTransitionTo(Processing)
    ensures var row' := Ended(row, e, false, maxRetries);
            && SameTask(row, row') && row'.attemptCount == row.attemptCount + 1
            && (row'.status, row'.error) == Stored(Verdict(e, maxRetries))
  {
  }

  /** What is told is what is stored exactly if some allowed attempt would not call for a retry: success, a failed
      check, or an error that is not retryable. Otherwise Dead is told and Processing is stored. */
  lemma {:induction false} ToldIsStoredExactly(row: PT.Task, script: Script, from: Talk, maxRetries: int)
    requires maxRetries >= 0 && row.status.CanTransitionTo(Processing)
    ensures var n := AttemptCount(script, from, maxRetries);
            var row' := RowAfter(row, script, from, maxRetries, n);
            var told := Told(script, from, maxRetries);
            && ((row'.status, row'.error) == (told.status, told.error)
                <==> exists j: nat :: j <= maxRetries && !Retries(EndOf(script, from, j)))
            && ((row'.status, row'.error) != (told.status, told.error)
                ==> told.status == Dead && (row'.status, row'.error) == (Processing, PT.NoMessage))
  {
    hide EndOf, RowAfter, PublishTaskStatus.CanTransitionTo;
    StoredAgreesWithTold(row, script, from, maxRetries);
    var n := AttemptCount(script, from, maxRetries);
    assert forall i :: 0 <= i < n - 1 ==> Retries(EndOf(script, from, i));
    if !Retries(EndOf(script, from, n - 1)) {
      assert n - 1 <= maxRetries;
    }
  }

  /** With at least one attempt allowed, the loop never falls through its end, tells success exactly with a
      result, and tells Dead only after the last allowed attempt. */
  lemma {:induction false} NeverFallsThrough(script: Script, from: Talk, maxRetries: int)
    requires maxRetries >= 0
    ensures var v := Told(script, from, maxRetries);
            && v.status in {Succeeded, PublishTaskStatus.Failed, Dead} && v.error != PT.LoopExited
            && (v.status == Succeeded <==> v.result.Some?)
            && (v.status == Succeeded <==> EndOf(script, from, AttemptCount(script, from, maxRetries) - 1).Posted?)
            && (v.status == Dead ==> AttemptCount(script, from, maxRetries) == maxRetries + 1)
  {
    hide EndOf;
  }

  /** Which attempts a loop of n attempts added to the store, and under which ids. */
  ghost predicate Added(t: PT.AttemptTable, t': PT.AttemptTable, taskID: string, ids: nat -> string, first: nat,
                        script: Script, from: Talk, n: nat) {
    && (forall id :: id in t ==> id in t' && t'[id] == t[id])
    && (forall j: nat :: j < n ==>
          Drawn(ids, first, j) in t' && Drawn(ids, first, j) !in t
          && t'[Drawn(ids, first, j)] == Record(Drawn(ids, first, j), taskID, EndOf(script, from, j), j))
    && (forall id :: id in t' && id !in t ==> exists j: nat :: j < n && id == Drawn(ids, first, j))
  }

  /** Exactly the records 1 to n were added, each under its own draw. */
  lemma {:induction false} RecordsExactly(t: PT.AttemptTable, taskID: string, ids: nat -> string, first: nat,
                                          script: Script, from: Talk, n: nat)
    requires forall i: nat, j: nat :: ids(i) == ids(j) ==> i == j
    requires forall i: nat :: i >= first ==> ids(i) !in t
    ensures Added(t, RecordsAfter(t, taskID, ids, first, script, from, n), taskID, ids, first, script, from, n)
  {
    hide EndOf, Record, Drawn, Added;
    if n == 0 {
      NothingAdded(t, taskID, ids, first, script, from);
    } else {
      RecordsExactly(t, taskID, ids, first, script, from, n - 1);
      var before := RecordsAfter(t, taskID, ids, first, script, from, n - 1);
      DrawIsNew(t, before, taskID, ids, first, script, from, n - 1);
      AddedOneMore(t, before, taskID, ids, first, script, from, n - 1);
    }
  }

  lemma NothingAdded(t: PT.AttemptTable, taskID: string, ids: nat -> string, first: nat, script: Script, from: Talk)
    ensures Added(t, t, taskID, ids, first, script, from, 0)
  {
  }

  /** The next draw is neither in the old table nor among the draws so far. */
  lemma DrawIsNew(t: PT.AttemptTable, before: PT.AttemptTable, taskID: string, ids: nat -> string, first: nat,
                  script: Script, from: Talk, n: nat)
    requires forall i: nat, j: nat :: ids(i) == ids(j) ==> i == j
    requires forall i: nat :: i >= first ==> ids(i) !in t
    requires Added(t, before, taskID, ids, first, script, from, n)
    ensures Drawn(ids, first, n) !in before
  {
    hide EndOf, Record;
    assert Drawn(ids, first, n) !in t;
  }

  lemma AddedOneMore(t: PT.AttemptTable, before: PT.AttemptTable, taskID: string, ids: nat -> string, first: nat,
                     script: Script, from: Talk, n: nat)
    requires Added(t, before, taskID, ids, first, script, from, n)
    requires Drawn(ids, first, n) !in before
    ensures var id := Drawn(ids, first, n);
            Added(t, before[id := Record(id, taskID, EndOf(script, from, n), n)], taskID, ids, first, script, from,
                  n + 1)
  {
    hide EndOf, Record, Drawn;
    var id := Drawn(ids, first, n);
    var after := before[id := Record(id, taskID, EndOf(script, from, n), n)];
    forall k | k in after && k !in t ensures exists j: nat :: j < n + 1 && k == Drawn(ids, first, j) {
      if k in before {
        var j: nat :| j < n && k == Drawn(ids, first, j);
      }
    }
  }

  /** All n attempts are closed, numbered 1 to n; the first n - 1 failed, and the last succeeded exactly if
      success was told. */
  lemma {:induction false} AttemptsLedger(t: PT.AttemptTable, taskID: string, ids: nat -> string, first: nat,
                                          script: Script, from: Talk, maxRetries: int, j: nat)
    requires maxRetries >= 0 && j < AttemptCount(script, from, maxRetries)
    requires forall i: nat, j: nat :: ids(i) == ids(j) ==> i == j
    requires forall i: nat :: i >= first ==> ids(i) !in t
    ensures var n := AttemptCount(script, from, maxRetries);
            var t' := RecordsAfter(t, taskID, ids, first, script, from, n);
            Drawn(ids, first, j) in t' && Drawn(ids, first, j) !in t &&
            var a := t'[Drawn(ids, first, j)];
            && a.taskID == taskID && a.number == j + 1 && a.completed
            && (j < n - 1 ==> a.status == PublishTaskStatus.Failed)
            && (j == n - 1 ==>
                a.status == (if Told(script, from, maxRetries).status == Succeeded then Succeeded
                             else PublishTaskStatus.Failed))
  {
    hide EndOf, RecordsAfter, Drawn, Attempts;
    var n := AttemptCount(script, from, maxRetries);
    RecordsExactly(t, taskID, ids, first, script, from, n);
    NeverFallsThrough(script, from, maxRetries);
    assert j < n - 1 ==> Retries(EndOf(script, from, j));
  }

  // ----- From the adapter's answers -----

  /** The adapter lets attempt j pass both checks and answers its Publish with a retryable error. */
  predicate MeetsRetryable(script: Script, from: Talk, j: nat) {
    && script.validate(from.validated + j) == None && script.upload(from.uploaded + j) == None
    && script.publish(from.published + j).PlatformError? && script.publish(from.published + j).retryable
  }

  /** What the loop tells and asks, read off the adapter's answers alone: every attempt but the last one passed both
      checks and met a retryable error; the last one decides, and whether the checks failed decides how often the assets
      were uploaded and the post published. */
  lemma {:induction false} AnswersDecide(script: Script, from: Talk, maxRetries: nat)
    ensures var n := AttemptCount(script, from, maxRetries);
            && 1 <= n <= maxRetries + 1
            && (forall j: nat :: j < n - 1 ==> MeetsRetryable(script, from, j))
            && var valid, uploaded := script.validate(from.validated + n - 1), script.upload(from.uploaded + n - 1);
               var told, talk := Told(script, from, maxRetries), TalkAfter(script, from, n);
               && talk.validated == from.validated + n
               && talk.uploaded == from.uploaded + (if valid.Some? then n - 1 else n)
               && talk.published == from.published + (if valid.Some? || uploaded.Some? then n - 1 else n)
               && if valid.Some? then
                    told == RetryResult(None, PublishTaskStatus.Failed, PT.ValidationFailed(valid.value))
                  else if uploaded.Some? then
                    told == RetryResult(None, PublishTaskStatus.Failed, PT.UploadFailed(uploaded.value))
                  else
                    match script.publish(from.published + n - 1)
                    case Accepted(result) => told == RetryResult(Some(result), Succeeded, PT.NoMessage)
                    case PlatformError(text, retryable) =>
                      if retryable then
                        n == maxRetries + 1 && told == RetryResult(None, Dead, PT.RetriesExhausted(maxRetries, text))
                      else told == RetryResult(None, PublishTaskStatus.Failed, PT.PermanentFailure(text))
                    case OtherError(text) =>
                      told == RetryResult(None, PublishTaskStatus.Failed, PT.PermanentFailure(text))
  {
    var n := AttemptCount(script, from, maxRetries);
    forall j: nat | j < n - 1 ensures MeetsRetryable(script, from, j) { assert Retries(EndOf(script, from, j)); }
    hide AttemptCount;
  }

  /** Without any attempt allowed nothing is asked or stored, and the loop falls through its end. */
  lemma NothingAllowed(row: PT.Task, t: PT.AttemptTable, taskID: string, ids: nat -> string, first: nat, script: Script,
                       from: Talk, maxRetries: int)
    requires maxRetries < 0
    ensures var n := AttemptCount(script, from, maxRetries);
            && n == 0 && TalkAfter(script, from, n) == from
            && RowAfter(row, script, from, maxRetries, n) == row
            && RecordsAfter(t, taskID, ids, first, script, from, n) == t
            && Told(script, from, maxRetries) == RetryResult(None, PublishTaskStatus.Failed, PT.LoopExited)
  {
  }

  /** The error that attempt j meets, if it gets that far. */
  function ErrorMet(script: Script, from: Talk, j: nat): PT.Message {
    if script.validate(from.validated + j).Some? then PT.ValidationFailed(script.validate(from.validated + j).value)
    else if script.upload(from.uploaded + j).Some? then PT.UploadFailed(script.upload(from.uploaded + j).value)
    else
      match script.publish(from.published + j)
      case Accepted(_) => PT.NoMessage
      case PlatformError(text, _) => PT.Cause(text)
      case OtherError(text) => PT.Cause(text)
  }

  /** What the record of each attempt says: the refusal it met, or the failed check, or nothing if it succeeded. */
  lemma {:induction false} AttemptErrors(t: PT.AttemptTable, taskID: string, ids: nat -> string, first: nat,
                                         script: Script, from: Talk, maxRetries: nat, j: nat)
    requires j < AttemptCount(script, from, maxRetries)
    requires forall i: nat, j: nat :: ids(i) == ids(j) ==> i == j
    requires forall i: nat :: i >= first ==> ids(i) !in t
    ensures var n := AttemptCount(script, from, maxRetries);
            var t' := RecordsAfter(t, taskID, ids, first, script, from, n);
            ids(first + j) in t' && t'[ids(first + j)].error == ErrorMet(script, from, j)
  {
    hide RecordsAfter, AttemptCount, Added, Record, EndOf;
    var n := AttemptCount(script, from, maxRetries);
    var t' := RecordsAfter(t, taskID, ids, first, script, from, n);
    RecordsExactly(t, taskID, ids, first, script, from, n);
    AddedRecord(t, t', taskID, ids, first, script, from, n, j);
    RecordError(ids(first + j), taskID, script, from, j);
  }

  lemma AddedRecord(t: PT.AttemptTable, t': PT.AttemptTable, taskID: string, ids: nat -> string, first: nat,
                    script: Script, from: Talk, n: nat, j: nat)
    requires Added(t, t', taskID, ids, first, script, from, n) && j < n
    ensures ids(first + j) in t' && t'[ids(first + j)] == Record(ids(first + j), taskID, EndOf(script, from, j), j)
  {
    assert Drawn(ids, first, j) == ids(first + j);
    hide Record, EndOf;
  }

  lemma RecordError(id: string, taskID: string, script: Script, from: Talk, j: nat)
    ensures Record(id, taskID, EndOf(script, from, j), j).error == ErrorMet(script, from, j)
  {
  }

  lemma RefusalStored(row: PT.Task, script: Script, from: Talk, maxRetries: int, j: nat)
    requires row.status.CanTransitionTo(Processing) && Retries(EndOf(script, from, j))
    ensures var waiting := Ended(row, EndOf(script, from, j), true, maxRetries);
            waiting.error == ErrorMet(script, from, j) && waiting.error.Cause?
  {
  }

  /** What is stored while the loop waits for its next attempt: retrying, with the refusal that the attempt before
      met. */
  lemma {:induction false} WaitingTells(row: PT.Task, script: Script, from: Talk, maxRetries: nat, j: nat)
    requires row.status.CanTransitionTo(Processing) && 0 < j < AttemptCount(script, from, maxRetries)
    ensures var waiting := RowAt(row, script, from, maxRetries, j);
            && waiting.status == Retrying && waiting.attemptCount == row.attemptCount + j
            && waiting.error == ErrorMet(script, from, j - 1) && waiting.error.Cause?
  {
    RowAtRunning(row, script, from, maxRetries, j);
    RowAtRunning(row, script, from, maxRetries, j - 1);
    RefusalStored(RowAt(row, script, from, maxRetries, j - 1), script, from, maxRetries, j - 1);
    hide AttemptCount, EndOf, Ended, ErrorMet, PublishTaskStatus.CanTransitionTo;
  }
}
