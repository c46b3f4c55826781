/** The two layers meet: the retry loop of the step machine, taken to its end without interruption, leaves in the
    stores and reports exactly what module Retry computes for the loop as a whole. */
module ProtocolRefinement {
  import opened Contracts
  import opened PublishTables
  import opened Protocol
  import R = Retry

  /** What a step takes from outside: a drawn id and an adapter's reply. */
  datatype Input = Input(id: string, reply: Reply)

  function Step(o: Outcome, contentID: string, platform: string, input: Input): Outcome {
    if o.Done? then o else RunStep(o.work, contentID, platform, o.run, input.id, input.reply)
  }

  /** As many steps of the retry loop as there are inputs, or until it is left. */
  function Take(o: Outcome, contentID: string, platform: string, inputs: seq<Input>): Outcome
    decreases inputs
  {
    if inputs == [] then o else Take(Step(o, contentID, platform, inputs[0]), contentID, platform, inputs[1..])
  }

  lemma {:induction false} TakeInParts(o: Outcome, contentID: string, platform: string, a: seq<Input>, b: seq<Input>)
    ensures Take(o, contentID, platform, a + b) == Take(Take(o, contentID, platform, a), contentID, platform, b)
    decreases a
  {
    hide Step;
    if a == [] {
      assert a + b == b;
    } else {
      assert (a + b)[1..] == a[1..] + b;
      TakeInParts(Step(o, contentID, platform, a[0]), contentID, platform, a[1..], b);
    }
  }

  lemma TakeFew(o: Outcome, contentID: string, platform: string, a: Input, b: Input, c: Input)
    ensures Take(o, contentID, platform, [a]) == Step(o, contentID, platform, a)
    ensures Take(o, contentID, platform, [a, b]) == Step(Step(o, contentID, platform, a), contentID, platform, b)
    ensures Take(o, contentID, platform, [a, b, c])
         == Step(Step(Step(o, contentID, platform, a), contentID, platform, b), contentID, platform, c)
  {
    hide Step;
    var o1 := Step(o, contentID, platform, a);
    var o2 := Step(o1, contentID, platform, b);
    assert [a][1..] == [] && [a, b][1..] == [b] && [a, b, c][1..] == [b, c] && [b, c][1..] == [c] && [b][1..] == [] &&
           [c][1..] == [];
    assert Take(o2, contentID, platform, [c]) == Step(o2, contentID, platform, c);
    assert Take(o1, contentID, platform, [b]) == o2;
    assert Take(o1, contentID, platform, [b, c]) == Step(o2, contentID, platform, c);
  }

  // ----- The script as replies -----

  function Nothing(): Reply {
    Success(PublishResult("", "", ""))
  }

  function CheckReply(answer: Option<string>): Reply {
    match answer
    case None => Nothing()
    case Some(cause) => Rejected(cause, false)
  }

  function PublishReply(answer: R.PublishReply): Reply {
    match answer
    case Accepted(result) => Success(result)
    case PlatformError(text, retryable) => Rejected(text, retryable)
    case OtherError(text) => Rejected(text, false)
  }

  function Idle(): Input {
    Input("", Nothing())
  }

  /** The inputs of one attempt that starts when the adapter stands at `from`, up to its last store write: three
      steps to begin, then the conversation with the adapter, then the bookkeeping of how it ended. */
  function AttemptInputs(script: R.Script, from: R.Talk, id: string, postID: string): seq<Input> {
    [Idle(), Input(id, Nothing()), Idle()] + Conversation(script, from) + Bookkeeping(R.EndOf(script, from, 0), postID)
  }

  function Conversation(script: R.Script, from: R.Talk): seq<Input> {
    var validated := Input("", CheckReply(script.validate(from.validated)));
    var uploaded := Input("", CheckReply(script.upload(from.uploaded)));
    var published := Input("", PublishReply(script.publish(from.published)));
    match R.EndOf(script, from, 0)
    case Invalid(_) => [validated]
    case NotUploaded(_) => [validated, uploaded]
    case _ => [validated, uploaded, published]
  }

  function Bookkeeping(e: R.AttemptEnd, postID: string): seq<Input> {
    if e.Posted? then [Idle(), Idle(), Input(postID, Nothing())] else [Idle(), Idle()]
  }

  /** The stores that the loop writes. */
  predicate Holds(w: Work, table: TaskTable, attempts: AttemptTable, posts: PostTable) {
    w.table == table && w.attempts == attempts && w.posts == posts
  }

  predicate At(o: Outcome, run: Run, table: TaskTable, attempts: AttemptTable, posts: PostTable) {
    o.Continue? && o.run == run && Holds(o.work, table, attempts, posts)
  }

  /** After its last attempt the loop is left with this report. */
  predicate LeftWith(o: Outcome, t: string, told: R.RetryResult, table: TaskTable, attempts: AttemptTable,
                     posts: PostTable) {
    o.Done? && o.report == Report(t, told.status, told.error, Executed) && Holds(o.work, table, attempts, posts)
  }

  // ----- One attempt -----

  /** Count, open, and mark as processing. */
  lemma Begins(w: Work, contentID: string, platform: string, run: Run, id: string)
    requires run.taskID in w.table.tasks && run.at.Count?
    ensures var t := run.taskID;
            var row := w.table.tasks[t];
            At(Take(Continue(w, run), contentID, platform, [Idle(), Input(id, Nothing()), Idle()]),
               run.(attemptID := id, at := Validate),
               R.WithRow(w.table, R.Begun(row), t), CreateAttempt(w.attempts, t, run.attempt + 1, id), w.posts)
  {
    var t, row := run.taskID, w.table.tasks[run.taskID];
    TakeFew(Continue(w, run), contentID, platform, Idle(), Input(id, Nothing()), Idle());
    hide Take;
    var o1 := Step(Continue(w, run), contentID, platform, Idle());
    assert o1.work.table == R.WithRow(w.table, R.Counted(row), t);
    var o2 := Step(o1, contentID, platform, Input(id, Nothing()));
    R.UpdateWritesRow(o2.work.table, t, Processing, NoMessage);
    R.BeginningRow(w.table, row, t);
    hide R.WithRow, R.Wrote, UpdateTask;
  }

  /** Where the bookkeeping starts. */
  function AfterTalk(run: Run, e: R.AttemptEnd): Run {
    match e
    case Invalid(cause) => run.(at := MarkInvalid(ValidationFailed(cause)))
    case NotUploaded(cause) => run.(at := MarkInvalid(UploadFailed(cause)))
    case Posted(result) => run.(at := MarkSucceeded(result))
    case Refused(cause, retryable) => run.(at := CloseRejected(cause, retryable))
  }

  /** Talking to the adapter leaves the stores alone. */
  lemma Talks(w: Work, contentID: string, platform: string, run: Run, script: R.Script, from: R.Talk)
    requires run.at.Validate?
    ensures At(Take(Continue(w, run), contentID, platform, Conversation(script, from)),
               AfterTalk(run, R.EndOf(script, from, 0)), w.table, w.attempts, w.posts)
  {
    var validated := Input("", CheckReply(script.validate(from.validated)));
    var uploaded := Input("", CheckReply(script.upload(from.uploaded)));
    var published := Input("", PublishReply(script.publish(from.published)));
    TakeFew(Continue(w, run), contentID, platform, validated, uploaded, published);
    hide Take;
  }

  lemma CloseAfterWrite(w: Work, contentID: string, platform: string, run: Run)
    requires run.at.MarkInvalid? && run.taskID in w.table.tasks
    ensures var o := Take(Continue(w, run), contentID, platform, [Idle(), Idle()]);
            o.Done? && o.report == Report(run.taskID, PublishTaskStatus.Failed, run.at.error, Executed) &&
            Holds(o.work,
                  R.WithRow(w.table, R.Wrote(w.table.tasks[run.taskID], PublishTaskStatus.Failed, run.at.error),
                            run.taskID),
                  CompleteAttempt(w.attempts, run.attemptID, PublishTaskStatus.Failed, run.at.error), w.posts)
  {
    R.UpdateWritesRow(w.table, run.taskID, PublishTaskStatus.Failed, run.at.error);
    TakeFew(Continue(w, run), contentID, platform, Idle(), Idle(), Idle());
    hide Take, R.Wrote, R.WithRow, UpdateTask, CompleteAttempt;
  }

  lemma RecordAfterWrite(w: Work, contentID: string, platform: string, run: Run, postID: string)
    requires run.at.MarkSucceeded? && run.taskID in w.table.tasks
    ensures var o := Take(Continue(w, run), contentID, platform, [Idle(), Idle(), Input(postID, Nothing())]);
            o.Done? && o.report == Report(run.taskID, Succeeded, NoMessage, Executed) &&
            Holds(o.work,
                  R.WithRow(w.table, R.Wrote(w.table.tasks[run.taskID], Succeeded, NoMessage), run.taskID),
                  CompleteAttempt(w.attempts, run.attemptID, Succeeded, NoMessage),
                  CreatePost(w.posts, run.taskID, platform, run.at.result, postID))
  {
    R.UpdateWritesRow(w.table, run.taskID, Succeeded, NoMessage);
    TakeFew(Continue(w, run), contentID, platform, Idle(), Idle(), Input(postID, Nothing()));
    hide Take, R.Wrote, R.WithRow, UpdateTask, CompleteAttempt, CreatePost;
  }

  /** A refusal is recorded, and then the task is written as failed, dead or retrying. */
  lemma WriteAfterClose(w: Work, contentID: string, platform: string, run: Run, max: int)
    requires run.at.CloseRejected? && run.taskID in w.table.tasks && w.table.tasks[run.taskID].policy.maxRetries == max
    ensures var t, cause := run.taskID, run.at.cause;
            var o := Take(Continue(w, run), contentID, platform, [Idle(), Idle()]);
            var e := R.Refused(cause, run.at.retryable);
            var closed := CompleteAttempt(w.attempts, run.attemptID, PublishTaskStatus.Failed, Cause(cause));
            if R.GoesOn(e, run.attempt, max) then
              At(o, run.(attempt := run.attempt + 1, at := Count),
                 R.WithRow(w.table, R.Wrote(w.table.tasks[t], Retrying, Cause(cause)), t), closed, w.posts)
            else
              LeftWith(o, t, R.Verdict(e, max),
                       R.WithRow(w.table, R.Wrote(w.table.tasks[t], R.Verdict(e, max).status, R.Verdict(e, max).error),
                                 t),
                       closed, w.posts)
  {
    hide Take, R.Wrote, R.WithRow, UpdateTask, CompleteAttempt;
    var t, cause := run.taskID, run.at.cause;
    R.UpdateWritesRow(w.table, t, Retrying, Cause(cause));
    var verdict := R.Verdict(R.Refused(cause, run.at.retryable), max);
    R.UpdateWritesRow(w.table, t, verdict.status, verdict.error);
    TakeFew(Continue(w, run), contentID, platform, Idle(), Idle(), Idle());
  }

  /** What one attempt from Count on comes to. */
  predicate AttemptDone(o: Outcome, w: Work, platform: string, run: Run, e: R.AttemptEnd, id: string, postID: string)
    requires run.taskID in w.table.tasks
  {
    var t, row := run.taskID, w.table.tasks[run.taskID];
    var max := row.policy.maxRetries;
    var attempts := w.attempts[id := R.Record(id, t, e, run.attempt)];
    if R.GoesOn(e, run.attempt, max) then
      At(o, run.(attemptID := id, attempt := run.attempt + 1, at := Count),
         R.WithRow(w.table, R.Ended(row, e, true, max), t), attempts, w.posts)
    else
      LeftWith(o, t, R.Verdict(e, max), R.WithRow(w.table, R.Ended(row, e, false, max), t), attempts,
               R.PostsWith(w.posts, t, platform, e, postID))
  }

  lemma BookkeepingDone(w: Work, contentID: string, platform: string, run: Run, w': Work, e: R.AttemptEnd, id: string,
                        postID: string)
    requires run.taskID in w.table.tasks
    requires Holds(w', R.WithRow(w.table, R.Begun(w.table.tasks[run.taskID]), run.taskID),
                   CreateAttempt(w.attempts, run.taskID, run.attempt + 1, id), w.posts)
    ensures AttemptDone(Take(Continue(w', AfterTalk(run.(attemptID := id, at := Validate), e)), contentID, platform,
                             Bookkeeping(e, postID)),
                        w, platform, run, e, id, postID)
  {
    var t, row := run.taskID, w.table.tasks[run.taskID];
    var at := AfterTalk(run.(attemptID := id, at := Validate), e);
    R.BegunRow(w.table, row, t);
    R.ClosedRecord(w.attempts, t, id, e, run.attempt);
    R.WithRowHolds(w.table, R.Begun(row), t);
    assert R.Begun(row).policy == row.policy;
    hide Take, R.WithRow, R.Begun, R.Wrote, CreateAttempt, CompleteAttempt, R.Record, CreatePost;
    match e {
      case Invalid(_) => CloseAfterWrite(w', contentID, platform, at);
      case NotUploaded(_) => CloseAfterWrite(w', contentID, platform, at);
      case Posted(_) => RecordAfterWrite(w', contentID, platform, at, postID);
      case Refused(_, _) => WriteAfterClose(w', contentID, platform, at, row.policy.maxRetries);
    }
  }

  lemma OneAttempt(w: Work, contentID: string, platform: string, run: Run, script: R.Script, from: R.Talk, id: string,
                   postID: string)
    requires run.taskID in w.table.tasks && run.at.Count?
    ensures AttemptDone(Take(Continue(w, run), contentID, platform, AttemptInputs(script, from, id, postID)),
                        w, platform, run, R.EndOf(script, from, 0), id, postID)
  {
    hide Take, AttemptDone, Step, R.EndOf, R.WithRow, R.Begun, CreateAttempt, Conversation, Bookkeeping, AfterTalk;
    var o := Continue(w, run);
    var e := R.EndOf(script, from, 0);
    var begin := [Idle(), Input(id, Nothing()), Idle()];
    TakeInParts(o, contentID, platform, begin + Conversation(script, from), Bookkeeping(e, postID));
    TakeInParts(o, contentID, platform, begin, Conversation(script, from));
    Begins(w, contentID, platform, run, id);
    var o1 := Take(o, contentID, platform, begin);
    Talks(o1.work, contentID, platform, o1.run, script, from);
    var o2 := Take(o1, contentID, platform, Conversation(script, from));
    BookkeepingDone(w, contentID, platform, run, o2.work, e, id, postID);
  }

  // ----- The whole loop -----

  function TalkAt(from: R.Talk, j: nat): R.Talk {
    R.Talk(from.validated + j, from.uploaded + j, from.published + j)
  }

  /** The inputs from attempt j on. */
  function LoopInputs(script: R.Script, from: R.Talk, ids: nat -> string, first: nat, max: int, j: nat): seq<Input>
    requires j <= max
    decreases max - j
  {
    AttemptInputs(script, TalkAt(from, j), ids(first + j), ids(first + j + 1))
    + (if R.GoesOn(R.EndOf(script, from, j), j, max) then LoopInputs(script, from, ids, first, max, j + 1) else [])
  }

  /** The loop stands before its next attempt, with the stores as they are at that moment. */
  predicate LoopAt(w: Work, run: Run, script: R.Script, from: R.Talk, ids: nat -> string, first: nat,
                   t0: TaskTable, a0: AttemptTable, row: Task) {
    var max, j, t := row.policy.maxRetries, run.attempt, run.taskID;
    && run.at.Count? && t in w.table.tasks && j <= max
    && R.AttemptCount(script, from, max) == R.Attempts(script, from, max, j)
    && w.table == R.WithRow(t0, R.RowAt(row, script, from, max, j), t)
    && R.RowAt(row, script, from, max, j).policy == row.policy
    && w.attempts == R.RecordsAfter(a0, t, ids, first, script, from, j)
  }

  predicate LoopLeft(o: Outcome, posts: PostTable, platform: string, t: string, script: R.Script, from: R.Talk,
                     ids: nat -> string, first: nat, t0: TaskTable, a0: AttemptTable, row: Task) {
    var max := row.policy.maxRetries;
    var n := R.AttemptCount(script, from, max);
    LeftWith(o, t, R.Told(script, from, max), R.WithRow(t0, R.RowAfter(row, script, from, max, n), t),
             R.RecordsAfter(a0, t, ids, first, script, from, n),
             R.PostsAfter(posts, t, platform, ids, first, script, from, n))
  }

  lemma TurnsOn(w: Work, platform: string, run: Run, script: R.Script, from: R.Talk, ids: nat -> string, first: nat,
                t0: TaskTable, a0: AttemptTable, row: Task, o: Outcome)
    requires LoopAt(w, run, script, from, ids, first, t0, a0, row)
    requires R.GoesOn(R.EndOf(script, from, run.attempt), run.attempt, row.policy.maxRetries)
    requires AttemptDone(o, w, platform, run, R.EndOf(script, from, run.attempt), ids(first + run.attempt),
                         ids(first + run.attempt + 1))
    ensures o.Continue? && LoopAt(o.work, o.run, script, from, ids, first, t0, a0, row)
    ensures o.run.attempt == run.attempt + 1 && o.run.taskID == run.taskID && o.work.posts == w.posts
  {
    hide R.EndOf, R.WithRow, R.Ended, R.Record, R.PostsWith, R.Verdict, R.GoesOn, R.Attempts, R.RowAt, R.RowAfter,
         LeftWith;
    var max, j, t := row.policy.maxRetries, run.attempt, run.taskID;
    R.LoopTurns(script, from, max, j);
    R.LoopRows(t0, row, t, script, from, max, j, []);
    R.LoopStores(a0, w.posts, t, platform, ids, first, script, from, max, j);
    EndedPolicy(R.RowAt(row, script, from, max, j), R.EndOf(script, from, j), max);
    RowHeld(t0, R.RowAt(row, script, from, max, j + 1), t);
    GoingOnIsAllowed(R.EndOf(script, from, j), j, max);
  }

  lemma TurnsOff(w: Work, platform: string, run: Run, script: R.Script, from: R.Talk, ids: nat -> string, first: nat,
                 t0: TaskTable, a0: AttemptTable, row: Task, o: Outcome)
    requires LoopAt(w, run, script, from, ids, first, t0, a0, row)
    requires !R.GoesOn(R.EndOf(script, from, run.attempt), run.attempt, row.policy.maxRetries)
    requires AttemptDone(o, w, platform, run, R.EndOf(script, from, run.attempt), ids(first + run.attempt),
                         ids(first + run.attempt + 1))
    ensures LoopLeft(o, w.posts, platform, run.taskID, script, from, ids, first, t0, a0, row)
  {
    hide R.EndOf, R.WithRow, R.Ended, R.Record, R.PostsWith, R.Verdict, R.GoesOn, R.Attempts, R.RowAt, R.RowAfter, At,
         LeftWith;
    var max, j, t := row.policy.maxRetries, run.attempt, run.taskID;
    R.LoopTurns(script, from, max, j);
    R.LoopRows(t0, row, t, script, from, max, j, []);
    R.LoopStores(a0, w.posts, t, platform, ids, first, script, from, max, j);
  }

  lemma LoopAtMeans(w: Work, run: Run, script: R.Script, from: R.Talk, ids: nat -> string, first: nat,
                    t0: TaskTable, a0: AttemptTable, row: Task)
    requires LoopAt(w, run, script, from, ids, first, t0, a0, row)
    ensures run.taskID in w.table.tasks && run.at.Count? && run.attempt <= row.policy.maxRetries
  {
  }

  lemma GoingOnIsAllowed(e: R.AttemptEnd, j: nat, max: int)
    ensures R.GoesOn(e, j, max) ==> j + 1 <= max
  {
  }

  lemma {:induction false} LoopFrom(w: Work, contentID: string, platform: string, run: Run, script: R.Script,
                                    from: R.Talk,
                                    ids: nat -> string, first: nat, t0: TaskTable, a0: AttemptTable, row: Task)
    requires LoopAt(w, run, script, from, ids, first, t0, a0, row)
    ensures LoopLeft(Take(Continue(w, run), contentID, platform,
                          LoopInputs(script, from, ids, first, row.policy.maxRetries, run.attempt)),
                     w.posts, platform, run.taskID, script, from, ids, first, t0, a0, row)
    decreases row.policy.maxRetries - run.attempt
  {
    hide LoopAt, LoopLeft, Take, AttemptDone, AttemptInputs, R.EndOf, R.GoesOn, R.Retries, R.TalkAfter;
    var max, j := row.policy.maxRetries, run.attempt;
    LoopAtMeans(w, run, script, from, ids, first, t0, a0, row);
    GoingOnIsAllowed(R.EndOf(script, from, j), j, max);
    var inputs := AttemptInputs(script, TalkAt(from, j), ids(first + j), ids(first + j + 1));
    OneAttempt(w, contentID, platform, run, script, TalkAt(from, j), ids(first + j), ids(first + j + 1));
    R.TalkTurns(script, from, j);
    var o := Take(Continue(w, run), contentID, platform, inputs);
    if R.GoesOn(R.EndOf(script, from, j), j, max) {
      TurnsOn(w, platform, run, script, from, ids, first, t0, a0, row, o);
      TakeInParts(Continue(w, run), contentID, platform, inputs, LoopInputs(script, from, ids, first, max, j + 1));
      LoopFrom(o.work, contentID, platform, o.run, script, from, ids, first, t0, a0, row);
    } else {
      TurnsOff(w, platform, run, script, from, ids, first, t0, a0, row, o);
      assert inputs + [] == inputs;
    }
  }

  lemma EndedPolicy(row: Task, e: R.AttemptEnd, max: int)
    ensures R.Ended(row, e, true, max).policy == row.policy
  {
  }

  lemma RowHeld(t: TaskTable, row: Task, id: string)
    ensures id in R.WithRow(t, row, id).tasks
  {
  }

  /** The retry loop of the step machine, started on a stored task and taken to its end on its own with the
      adapter's answers as replies, leaves in the task, attempt and post stores what module Retry computes for
      the whole loop, and reports the status and error it tells. */
  lemma {:induction false} LoopRefines(w: Work, contentID: string, platform: string, t: string, script: R.Script,
                                       from: R.Talk, ids: nat -> string, first: nat)
    requires t in w.table.tasks && w.table.tasks[t].policy.maxRetries >= 0
    ensures var row := w.table.tasks[t];
            var max := row.policy.maxRetries;
            var n := R.AttemptCount(script, from, max);
            LeftWith(Take(Continue(w, Run(t, 0, "", Count)), contentID, platform,
                          LoopInputs(script, from, ids, first, max, 0)),
                     t, R.Told(script, from, max),
                     R.WithRow(w.table, R.RowAfter(row, script, from, max, n), t),
                     R.RecordsAfter(w.attempts, t, ids, first, script, from, n),
                     R.PostsAfter(w.posts, t, platform, ids, first, script, from, n))
  {
    var row := w.table.tasks[t];
    R.LoopStarts(w.table, row, t, script, from, row.policy.maxRetries);
    hide R.EndOf, R.WithRow, R.Ended, Take, LoopInputs, LeftWith, R.Told, R.PostsAfter, R.RowAfter;
    assert Continue(w, Run(t, 0, "", Count)).run.at.Count?;
    LoopFrom(w, contentID, platform, Run(t, 0, "", Count), script, from, ids, first, w.table, w.attempts, row);
  }
}
