/** The scripted adapter of internal/platform/mock/mock.go, and exactly what the retry loop makes of it. */
module Mock {
  import opened Contracts
  import opened Retry
  import PT = PublishTables

  /** What the adapter is configured to do. */
  datatype Behavior = Behavior(
    validateErr: Option<string>,
    uploadErr: Option<string>,
    publishErr: Option<PublishReply>,
    attemptsBeforeSuccess: int,
    publishResult: Option<PT.PublishResult>)
  {
    /** The configured publish error is one. */
    predicate Valid() {
      publishErr.Some? ==> !publishErr.value.Accepted?
    }
  }

  datatype PublishCall = PublishCall(title: string, tags: seq<string>)

  function Decimal(n: nat): string {
    var digit := [(48 + n % 10) as char];
    if n < 10 then digit else Decimal(n / 10) + digit
  }

  function DefaultResult(name: string, attempt: nat): PT.PublishResult {
    PT.PublishResult("mock-post-" + Decimal(attempt),
                     "https://" + name + ".example.com/posts/" + Decimal(attempt),
                     "{\"status\":\"ok\"}")
  }

  /** The answer to the Publish call that brings the counter to `attempt`: the configured error, unless a
      positive number of failures is configured and used up. */
  function ReplyAt(name: string, b: Behavior, attempt: nat): PublishReply {
    if b.publishErr.Some? && !(b.attemptsBeforeSuccess > 0 && attempt > b.attemptsBeforeSuccess) then b.publishErr.value
    else if b.publishResult.Some? then Accepted(b.publishResult.value)
    else Accepted(DefaultResult(name, attempt))
  }

  /** The adapter as the retry loop sees it: Publish call number k, from 0, brings the counter to k + 1. */
  function ScriptOf(name: string, b: Behavior): Script {
    Script(_ => b.validateErr, _ => b.uploadErr, (k: nat) => ReplyAt(name, b, k + 1))
  }

  class MockPlatform {
    const name: string
    const behavior: Behavior
    var calls: seq<PublishCall>
    var attempt: nat

    constructor (name: string, b: Behavior)
      ensures this.name == name && behavior == b && calls == [] && attempt == 0
    {
      this.name := name;
      behavior := b;
      calls := [];
      attempt := 0;
    }

    method Validate() returns (error: Option<string>)
      ensures forall k :: error == ScriptOf(name, behavior).validate(k)
    {
      return behavior.validateErr;
    }

    method UploadAssets() returns (error: Option<string>)
      ensures forall k :: error == ScriptOf(name, behavior).upload(k)
    {
      return behavior.uploadErr;
    }

    /** Record the call, count it, and answer by the count. */
    method Publish(title: string, tags: seq<string>) returns (reply: PublishReply)
      modifies this
      ensures calls == old(calls) + [PublishCall(title, tags)] && attempt == old(attempt) + 1
      ensures reply == ScriptOf(name, behavior).publish(old(attempt))
    {
      calls := calls + [PublishCall(title, tags)];
      attempt := attempt + 1;
      if behavior.publishErr.Some? {
        if behavior.attemptsBeforeSuccess > 0 && attempt > behavior.attemptsBeforeSuccess {
        } else {
          return behavior.publishErr.value;
        }
      }
      if behavior.publishResult.Some? {
        return Accepted(behavior.publishResult.value);
      }
      return Accepted(DefaultResult(name, attempt));
    }
  }

  // ----- The retry loop against the adapter -----

  predicate FailsToPublish(b: Behavior) {
    b.Valid() && b.validateErr == None && b.uploadErr == None && b.publishErr.Some?
  }

  predicate FailsRetryably(b: Behavior) {
    FailsToPublish(b) && b.publishErr.value.PlatformError? && b.publishErr.value.retryable
  }

  /** How many more failures the adapter has in store when its counter stands at a. */
  function FailuresLeft(b: Behavior, a: nat): nat {
    if b.attemptsBeforeSuccess > a then b.attemptsBeforeSuccess - a else 0
  }

  lemma MockEnds(name: string, b: Behavior, from: Talk, j: nat)
    requires FailsToPublish(b)
    ensures EndOf(ScriptOf(name, b), from, j).Posted? <==>
            b.attemptsBeforeSuccess > 0 && j >= FailuresLeft(b, from.published)
    ensures Retries(EndOf(ScriptOf(name, b), from, j)) <==>
            FailsRetryably(b) && !EndOf(ScriptOf(name, b), from, j).Posted?
  {
  }

  lemma MockEndsRetryably(name: string, b: Behavior, from: Talk, j: nat)
    requires FailsRetryably(b) && b.attemptsBeforeSuccess > 0
    ensures Retries(EndOf(ScriptOf(name, b), from, j)) <==> j < FailuresLeft(b, from.published)
  {
    MockEnds(name, b, from, j);
    hide EndOf, ScriptOf, Retries;
  }

  /** What the last attempt, number j from 0, tells, and the calls counted by then. */
  lemma LastMockEnd(name: string, b: Behavior, from: Talk, j: nat, maxRetries: nat)
    requires FailsRetryably(b) && b.attemptsBeforeSuccess > 0
    ensures Verdict(EndOf(ScriptOf(name, b), from, j), maxRetries).status
         == (if j < FailuresLeft(b, from.published) then Dead else Succeeded)
    ensures TalkAfter(ScriptOf(name, b), from, j + 1).published == from.published + j + 1
  {
    MockEnds(name, b, from, j);
    assert !EndOf(ScriptOf(name, b), from, j).Invalid? && !EndOf(ScriptOf(name, b), from, j).NotUploaded?;
    hide EndOf, ScriptOf;
  }

  /** An adapter whose counter stands at a and that fails f > 0 times with a retryable error is asked
      min(max(f - a, 0) + 1, maxRetries + 1) times; the loop succeeds exactly if max(f - a, 0) <= maxRetries,
      and tells Dead otherwise. */
  lemma {:induction false} FlakyMock(name: string, b: Behavior, from: Talk, maxRetries: nat)
    requires FailsRetryably(b) && b.attemptsBeforeSuccess > 0
    ensures var left := FailuresLeft(b, from.published);
            var n := AttemptCount(ScriptOf(name, b), from, maxRetries);
            && n == (if left <= maxRetries then left + 1 else maxRetries + 1)
            && Told(ScriptOf(name, b), from, maxRetries).status == (if left <= maxRetries then Succeeded else Dead)
            && TalkAfter(ScriptOf(name, b), from, n).published == from.published + n
  {
    hide EndOf, ScriptOf, ReplyAt, Retries, FailsRetryably, Verdict;
    var script := ScriptOf(name, b);
    var left := FailuresLeft(b, from.published);
    var n := if left <= maxRetries then left + 1 else maxRetries + 1;
    forall i: nat ensures Retries(EndOf(script, from, i)) <==> i < left {
      MockEndsRetryably(name, b, from, i);
    }
    AttemptsUnique(script, from, maxRetries, 0, n);
    LastMockEnd(name, b, from, n - 1, maxRetries);
  }

  /** Without a number of failures the retryable error never stops: the loop uses up every retry. */
  lemma {:induction false} EndlessMock(name: string, b: Behavior, from: Talk, maxRetries: nat)
    requires FailsRetryably(b) && b.attemptsBeforeSuccess <= 0
    ensures AttemptCount(ScriptOf(name, b), from, maxRetries) == maxRetries + 1
    ensures Told(ScriptOf(name, b), from, maxRetries).status == Dead
  {
    forall i: nat ensures Retries(EndOf(ScriptOf(name, b), from, i)) {
      MockEnds(name, b, from, i);
    }
    AttemptsUnique(ScriptOf(name, b), from, maxRetries, 0, maxRetries + 1);
    hide EndOf, ScriptOf, ReplyAt;
  }

  /** There told and stored part: a task run against such an adapter is told Dead and stays Processing. */
  lemma {:induction false} EndlessMockIsStoredProcessing(name: string, b: Behavior, from: Talk, row: PT.Task,
                                                         maxRetries: nat)
    requires FailsRetryably(b) && b.attemptsBeforeSuccess <= 0 && row.status.CanTransitionTo(Processing)
    ensures var row' := RowAfter(row, ScriptOf(name, b), from, maxRetries, maxRetries + 1);
            Told(ScriptOf(name, b), from, maxRetries).status == Dead && row'.status == Processing &&
              row'.error == PT.NoMessage
  {
    EndlessMock(name, b, from, maxRetries);
    hide ScriptOf, EndOf, RowAfter, Told, AttemptCount;
    StoredAgreesWithTold(row, ScriptOf(name, b), from, maxRetries);
  }

  /** Any other error ends the loop with its first attempt. */
  lemma {:induction false} PermanentMock(name: string, b: Behavior, from: Talk, maxRetries: nat)
    requires FailsToPublish(b) && !FailsRetryably(b)
    ensures AttemptCount(ScriptOf(name, b), from, maxRetries) == 1
    ensures Told(ScriptOf(name, b), from, maxRetries).status
         == (if b.attemptsBeforeSuccess > 0 && from.published >= b.attemptsBeforeSuccess then Succeeded
             else PublishTaskStatus.Failed)
  {
    MockEnds(name, b, from, 0);
    AttemptsUnique(ScriptOf(name, b), from, maxRetries, 0, 1);
    hide ScriptOf, ReplyAt;
  }

  // ----- What it accepts with -----

  /** The number that a string of digits stands for. */
  function Value(s: string): int {
    if s == "" then 0 else 10 * Value(s[..|s| - 1]) + (s[|s| - 1] as int - 48)
  }

  lemma {:induction false} DecimalValue(n: nat)
    ensures Value(Decimal(n)) == n && forall i :: 0 <= i < |Decimal(n)| ==> '0' <= Decimal(n)[i] <= '9'
  {
    var digit := [(48 + n % 10) as char];
    if n < 10 {
      assert digit[..0] == "";
    } else {
      DecimalValue(n / 10);
      assert (Decimal(n / 10) + digit)[..|Decimal(n / 10)|] == Decimal(n / 10);
    }
  }

  /** The default posts of different calls have different ids; the first one is spelled out. */
  lemma {:induction false} DefaultPosts(name: string, i: nat, j: nat)
    ensures DefaultResult(name, i).postID == DefaultResult(name, j).postID <==> i == j
    ensures DefaultResult(name, 1).postID == "mock-post-1"
    ensures DefaultResult(name, 1).url == "https://" + name + ".example.com/posts/1"
  {
    DecimalValue(i);
    DecimalValue(j);
    var a, b := DefaultResult(name, i).postID, DefaultResult(name, j).postID;
    assert a[|"mock-post-"|..] == Decimal(i) && b[|"mock-post-"|..] == Decimal(j);
    assert Decimal(1) == "1";
  }

  /** A loop that succeeds tells the configured result, or else the default one of its last call's number. */
  lemma {:induction false} AcceptedResult(name: string, b: Behavior, from: Talk, maxRetries: nat)
    requires b.Valid()
    ensures var told, n := Told(ScriptOf(name, b), from, maxRetries), AttemptCount(ScriptOf(name, b), from, maxRetries);
            told.result.Some? ==>
              told.result.value == if b.publishResult.Some? then b.publishResult.value
                                   else DefaultResult(name, TalkAfter(ScriptOf(name, b), from, n).published)
  {
    AnswersDecide(ScriptOf(name, b), from, maxRetries);
    var n := AttemptCount(ScriptOf(name, b), from, maxRetries);
    assert ScriptOf(name, b).publish(from.published + n - 1) == ReplyAt(name, b, from.published + n);
    hide AttemptCount, DefaultResult, Told, TalkAfter;
  }

  /** A configured validation error ends the loop with its first attempt, before any upload, and a configured upload
      error before any Publish; the task fails with that error. */
  lemma {:induction false} FailingChecks(name: string, b: Behavior, from: Talk, maxRetries: nat)
    requires b.validateErr.Some? || b.uploadErr.Some?
    ensures var script := ScriptOf(name, b);
            var n := AttemptCount(script, from, maxRetries);
            && n == 1
            && TalkAfter(script, from, n) == Talk(from.validated + 1,
                                                  if b.validateErr.Some? then from.uploaded else from.uploaded + 1,
                                                  from.published)
            && Told(script, from, maxRetries) == RetryResult(None, PublishTaskStatus.Failed,
                 if b.validateErr.Some? then PT.ValidationFailed(b.validateErr.value)
                 else PT.UploadFailed(b.uploadErr.value))
  {
    var script := ScriptOf(name, b);
    var n := AttemptCount(script, from, maxRetries);
    AttemptsUnique(script, from, maxRetries, 0, 1);
    AnswersDecide(script, from, maxRetries);
    assert script.validate(from.validated) == b.validateErr && script.upload(from.uploaded) == b.uploadErr;
    hide AttemptCount, Told, TalkAfter, ReplyAt;
  }
}
