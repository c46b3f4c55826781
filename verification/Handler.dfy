/** The queue-side handler of internal/queue/handler.go and its lease guard of internal/queue/idempotency.go. */
module Handler {
  import opened Contracts
  import opened Keys
  import opened Leases
  import opened PublishStores
  import Policy
  import PT = PublishTables

  // ----- What the handler meets -----

  datatype ErrorCode = Validation | MissingEntity | Forbidden | Internal | Conflicting | Unavailable | RateLimited

  /** A publisher's error, as the two searches through its chain see it: whether the first PlatformError in it is
      retryable, and the code of the first AppError. */
  datatype PublishError = PublishError(platformRetryable: Option<bool>, appCode: Option<ErrorCode>)

  datatype GuardReply = Acquired | Held | GuardFailed
  datatype PublisherReply = Succeeds | Fails(error: PublishError)

  /** What the guard, the store and the publisher answer in one delivery, whatever they are. */
  datatype Answers = Answers(
    guard: GuardReply,
    setProcessing: bool,
    publish: PublisherReply,
    record: bool,
    setSucceeded: bool,
    setDead: bool)

  datatype Payload = Payload(taskID: string, contentID: string, platform: string)

  /** The calls the handler makes, with the answers it gets; the first five are counted by the metrics. */
  datatype Effect =
    | Started | Hit | Completed | FailedOnce | CountedDead
    | Asked(reply: GuardReply)
    | Wrote(status: PublishTaskStatus, accepted: bool)
    | Called(answer: PublisherReply)
    | Recorded(accepted: bool)

  /** What HandlePublish returns: nil, or what went wrong. */
  datatype Returned = Nil | StoreRefused(at: PublishTaskStatus) | NotRecorded | WillRetry(error: PublishError)

  /** Errors that must not be retried. */
  predicate IsPermanentError(e: PublishError) {
    || e.platformRetryable == Some(false)
    || (e.appCode.Some? && e.appCode.value in {Validation, MissingEntity, Forbidden})
  }

  // ----- The handler -----

  class TaskHandler {
    const guarded: bool          // without a guard, duplicates are not detected
    var log: seq<Effect>         // the calls made so far

    constructor (guarded: bool)
      ensures this.guarded == guarded && log == []
    {
      this.guarded := guarded;
      log := [];
    }

    method HandlePublish(payload: Payload, a: Answers) returns (r: Returned)
      modifies this
      ensures log == old(log) + EffectsOf(guarded, a)
      ensures r == ReturnOf(guarded, a)
    {
      hide IsPermanentError, FailureEffects, PublisherEffects, EffectsOf;
      Exits(log, guarded, a);
      log := log + [Started];
      if guarded {
        log := log + [Asked(a.guard)];
        if a.guard.Held? {
          log := log + [Hit];
          return Nil;
        }
      }
      log := log + [Wrote(Processing, a.setProcessing)];
      if !a.setProcessing {
        return StoreRefused(Processing);
      }
      log := log + [Called(a.publish)];
      if a.publish.Fails? {
        r := HandleFailure(a.publish.error, a);
        return;
      }
      log := log + [Recorded(a.record)];
      if !a.record {
        return NotRecorded;
      }
      log := log + [Wrote(Succeeded, a.setSucceeded)];
      if !a.setSucceeded {
        return StoreRefused(Succeeded);
      }
      log := log + [Completed];
      return Nil;
    }

    method HandleFailure(error: PublishError, a: Answers) returns (r: Returned)
      modifies this
      ensures log == old(log) + FailureEffects(error, a)
      ensures r == if IsPermanentError(error) then Nil else WillRetry(error)
    {
      log := log + [FailedOnce];
      if IsPermanentError(error) {
        log := log + [Wrote(Dead, a.setDead)];
        log := log + [CountedDead];
        return Nil;
      }
      return WillRetry(error);
    }
  }

  function FailureEffects(error: PublishError, a: Answers): seq<Effect> {
    [FailedOnce] + (if IsPermanentError(error) then [Wrote(Dead, a.setDead), CountedDead] else [])
  }

  function PublisherEffects(a: Answers): seq<Effect> {
    [Called(a.publish)]
    + (if a.publish.Fails? then FailureEffects(a.publish.error, a)
       else [Recorded(a.record)]
            + (if !a.record then []
               else [Wrote(Succeeded, a.setSucceeded)] + (if a.setSucceeded then [Completed] else [])))
  }

  function EffectsOf(guarded: bool, a: Answers): seq<Effect> {
    [Started]
    + (if guarded then [Asked(a.guard)] else [])
    + (if guarded && a.guard.Held? then [Hit]
       else [Wrote(Processing, a.setProcessing)] + (if a.setProcessing then PublisherEffects(a) else []))
  }

  /** The log after the guard's answer. */
  function Led(log: seq<Effect>, guarded: bool, a: Answers): seq<Effect> {
    if guarded then log + [Started] + [Asked(a.guard)] else log + [Started]
  }

  /** The log, call by call, at each exit of HandlePublish. */
  predicate ExitLogs(log: seq<Effect>, guarded: bool, a: Answers) {
    var all := log + EffectsOf(guarded, a);
    var written := Led(log, guarded, a) + [Wrote(Processing, a.setProcessing)];
    var called := written + [Called(a.publish)];
    var recorded := called + [Recorded(a.record)];
    var succeeded := recorded + [Wrote(Succeeded, a.setSucceeded)];
    if guarded && a.guard.Held? then Led(log, guarded, a) + [Hit] == all
    else if !a.setProcessing then written == all
    else if a.publish.Fails? then called + FailureEffects(a.publish.error, a) == all
    else if !a.record then recorded == all
    else if !a.setSucceeded then succeeded == all
    else succeeded + [Completed] == all
  }

  lemma PublisherExits(before: seq<Effect>, a: Answers)
    ensures var all := before + PublisherEffects(a);
            var called := before + [Called(a.publish)];
            var recorded := called + [Recorded(a.record)];
            var succeeded := recorded + [Wrote(Succeeded, a.setSucceeded)];
            if a.publish.Fails? then called + FailureEffects(a.publish.error, a) == all
            else if !a.record then recorded == all
            else if !a.setSucceeded then succeeded == all
            else succeeded + [Completed] == all
  {
    hide FailureEffects;
  }

  lemma Exits(log: seq<Effect>, guarded: bool, a: Answers)
    ensures ExitLogs(log, guarded, a)
  {
    hide PublisherEffects, FailureEffects;
    var written := Led(log, guarded, a) + [Wrote(Processing, a.setProcessing)];
    PublisherExits(written, a);
    if !(guarded && a.guard.Held?) && a.setProcessing {
      assert written + PublisherEffects(a) == log + EffectsOf(guarded, a);
    }
  }

  function ReturnOf(guarded: bool, a: Answers): Returned {
    if guarded && a.guard.Held? then Nil
    else if !a.setProcessing then StoreRefused(Processing)
    else if a.publish.Fails? then (if IsPermanentError(a.publish.error) then Nil else WillRetry(a.publish.error))
    else if !a.record then NotRecorded
    else if !a.setSucceeded then StoreRefused(Succeeded)
    else Nil
  }

  // ----- The order of one delivery -----

  /** What may come directly before an effect. */
  predicate Follows(before: seq<Effect>, e: Effect) {
    match e
    case Started => before == []
    case Asked(_) => before == [Started]
    case Hit => |before| > 0 && before[|before| - 1] == Asked(Held)
    case Wrote(Processing, _) =>
      before == [Started] || before == [Started, Asked(Acquired)] || before == [Started, Asked(GuardFailed)]
    case Called(_) => |before| > 0 && before[|before| - 1] == Wrote(Processing, true)
    case Recorded(_) => |before| > 0 && before[|before| - 1] == Called(Succeeds)
    case Wrote(Succeeded, _) => |before| > 0 && before[|before| - 1] == Recorded(true)
    case Completed => |before| > 0 && before[|before| - 1] == Wrote(Succeeded, true)
    case FailedOnce => |before| > 0 && before[|before| - 1].Called? && before[|before| - 1].answer.Fails?
    case Wrote(Dead, _) =>
      && |before| > 1 && before[|before| - 1] == FailedOnce
      && before[|before| - 2].Called? && before[|before| - 2].answer.Fails?
      && IsPermanentError(before[|before| - 2].answer.error)
    case CountedDead => |before| > 0 && before[|before| - 1].Wrote? && before[|before| - 1].status == Dead
    case _ => false
  }

  /** For any guard, store and publisher: the publisher is called only directly after processing was accepted in
      the same delivery, a succeeded write comes only after the result was recorded, and a dead write only after
      a permanent error. Nothing else is ever written. */
  lemma {:induction false} DeliveryOrder(guarded: bool, a: Answers, k: nat)
    requires k < |EffectsOf(guarded, a)|
    ensures Follows(EffectsOf(guarded, a)[..k], EffectsOf(guarded, a)[k])
  {
    var log := EffectsOf(guarded, a);
    var lead := if guarded then [Started, Asked(a.guard)] else [Started];
    assert lead <= log;
    if k >= |lead| && !(guarded && a.guard.Held?) {
      assert log == lead + log[|lead|..];
      var tail := [Wrote(Processing, a.setProcessing)] + (if a.setProcessing then PublisherEffects(a) else []);
      assert log[|lead|..] == tail;
      TailOrder(a, k - |lead|, lead);
      assert log[..k] == lead + tail[..k - |lead|];
    }
  }

  lemma TailOrder(a: Answers, k: nat, lead: seq<Effect>)
    requires lead in {[Started], [Started, Asked(Acquired)], [Started, Asked(GuardFailed)]}
    requires k < |[Wrote(Processing, a.setProcessing)] + (if a.setProcessing then PublisherEffects(a) else [])|
    ensures var tail := [Wrote(Processing, a.setProcessing)] + (if a.setProcessing then PublisherEffects(a) else []);
            Follows(lead + tail[..k], tail[k])
  {
    hide PublisherEffects, IsPermanentError;
    var tail := [Wrote(Processing, a.setProcessing)] + (if a.setProcessing then PublisherEffects(a) else []);
    if k == 0 {
      assert lead + tail[..0] == lead;
    } else {
      PublisherOrder(a, k - 1, lead + [Wrote(Processing, true)]);
      assert lead + tail[..k] == lead + [Wrote(Processing, true)] + PublisherEffects(a)[..k - 1];
    }
  }

  lemma PublisherOrder(a: Answers, m: nat, lead: seq<Effect>)
    requires m < |PublisherEffects(a)| && lead != [] && lead[|lead| - 1] == Wrote(Processing, true)
    ensures Follows(lead + PublisherEffects(a)[..m], PublisherEffects(a)[m])
  {
    hide IsPermanentError;
    var log := PublisherEffects(a);
    var before := lead + log[..m];
    if m > 0 { assert before[|before| - 1] == log[m - 1]; }
    if m > 1 { assert before[|before| - 2] == log[m - 2]; }
  }

  // ----- Which failures are final -----

  /** What each failure of the publisher comes to: if the first platform error is not retryable, or the first
      application error is a validation error, a missing entity or a forbidden action, dead is written and nil
      returned; in every other case nothing is written, and the error is returned for another delivery. */
  lemma FailuresDecided(guarded: bool, a: Answers)
    requires CallsPublisher(guarded, a) && a.publish.Fails?
    ensures var e, log := a.publish.error, EffectsOf(guarded, a);
            match (e.platformRetryable, e.appCode)
            case (Some(false), _) => GivesUp(log, ReturnOf(guarded, a), a.setDead)
            case (_, Some(Validation)) => GivesUp(log, ReturnOf(guarded, a), a.setDead)
            case (_, Some(MissingEntity)) => GivesUp(log, ReturnOf(guarded, a), a.setDead)
            case (_, Some(Forbidden)) => GivesUp(log, ReturnOf(guarded, a), a.setDead)
            case _ => ReturnOf(guarded, a) == WillRetry(e) && forall accepted :: Wrote(Dead, accepted) !in log
  {
    hide EffectsOf, ReturnOf, IsPermanentError, GivesUp;
    PermanentMeans(a.publish.error);
    FailureLog(guarded, a);
  }

  lemma PermanentMeans(e: PublishError)
    ensures IsPermanentError(e) <==>
              match (e.platformRetryable, e.appCode)
              case (Some(false), _) => true
              case (_, Some(Validation)) => true
              case (_, Some(MissingEntity)) => true
              case (_, Some(Forbidden)) => true
              case _ => false
  {
  }

  lemma FailureLog(guarded: bool, a: Answers)
    requires CallsPublisher(guarded, a) && a.publish.Fails?
    ensures var e, log := a.publish.error, EffectsOf(guarded, a);
            if IsPermanentError(e) then GivesUp(log, ReturnOf(guarded, a), a.setDead)
            else ReturnOf(guarded, a) == WillRetry(e) && forall accepted :: Wrote(Dead, accepted) !in log
  {
    hide IsPermanentError;
    var lead := (if guarded then [Started, Asked(a.guard)] else [Started]) + [Wrote(Processing, true)];
    assert EffectsOf(guarded, a) == lead + [Called(a.publish)] + FailureEffects(a.publish.error, a);
    DeadAtTheEnd(lead, a);
  }

  /** The delivery ends with the write of dead, is counted as dead, and is not delivered again. */
  predicate GivesUp(log: seq<Effect>, r: Returned, setDead: bool) {
    r == Nil && |log| > 2 && log[|log| - 3..] == [FailedOnce, Wrote(Dead, setDead), CountedDead]
  }

  lemma DeadAtTheEnd(lead: seq<Effect>, a: Answers)
    ensures var log := lead + [Called(a.publish)] + [FailedOnce, Wrote(Dead, a.setDead), CountedDead];
            log[|log| - 3..] == [FailedOnce, Wrote(Dead, a.setDead), CountedDead]
  {
  }

  /** What a delivery returns, told by its last effects: nil exactly if it completed, was a duplicate or gave up, and
      else the one call that went wrong. */
  lemma ReturnsTell(guarded: bool, a: Answers)
    ensures var log, r := EffectsOf(guarded, a), ReturnOf(guarded, a);
            var last := log[|log| - 1];
            match r
            case Nil => last in {Hit, Completed, CountedDead}
            case StoreRefused(at) => last == Wrote(at, false) && at in {Processing, Succeeded}
            case NotRecorded => last == Recorded(false)
            case WillRetry(e) => |log| > 1 && last == FailedOnce && log[|log| - 2] == Called(Fails(e))
  {
    hide IsPermanentError;
  }

  // ----- Any sequence of deliveries -----

  function EffectsOfAll(guarded: bool, deliveries: seq<Answers>): seq<Effect> {
    if deliveries == [] then []
    else EffectsOfAll(guarded, deliveries[..|deliveries| - 1]) + EffectsOf(guarded, deliveries[|deliveries| - 1])
  }

  function Count(log: seq<Effect>, e: Effect): nat {
    multiset(log)[e]
  }

  /** How many deliveries returned an error of the store. */
  function StoreErrors(guarded: bool, deliveries: seq<Answers>): nat {
    if deliveries == [] then 0
    else
      var r := ReturnOf(guarded, deliveries[|deliveries| - 1]);
      StoreErrors(guarded, deliveries[..|deliveries| - 1]) + NoMore(r)
  }

  /** How many deliveries failed at the publisher and still returned nil. */
  function FailedForGood(guarded: bool, deliveries: seq<Answers>): nat {
    if deliveries == [] then 0
    else
      var last := deliveries[|deliveries| - 1];
      FailedForGood(guarded, deliveries[..|deliveries| - 1])
      + (if Count(EffectsOf(guarded, last), FailedOnce) > 0 && ReturnOf(guarded, last) == Nil then 1 else 0)
  }

  function NoMore(r: Returned): nat {
    if r.StoreRefused? || r.NotRecorded? then 1 else 0
  }

  lemma FailureCounts(error: PublishError, a: Answers)
    ensures var log := FailureEffects(error, a);
            && Count(log, Started) == 0 && Count(log, Hit) == 0 && Count(log, Completed) == 0
            && Count(log, FailedOnce) == 1
            && Count(log, CountedDead) == (if IsPermanentError(error) then 1 else 0)
  {
    hide IsPermanentError;
  }

  lemma PublisherCounts(a: Answers)
    requires a.setProcessing
    ensures var log := PublisherEffects(a);
            var r := ReturnOf(false, a);
            && Count(log, Started) == 0 && Count(log, Hit) == 0 && Count(log, FailedOnce) <= 1
            && 1 == Count(log, Completed) + Count(log, FailedOnce) + NoMore(r)
            && Count(log, CountedDead) == (if Count(log, FailedOnce) > 0 && r == Nil then 1 else 0)
  {
    hide IsPermanentError, FailureEffects;
    if a.publish.Fails? { FailureCounts(a.publish.error, a); }
  }

  lemma OneDelivery(guarded: bool, a: Answers)
    ensures var log := EffectsOf(guarded, a);
            var r := ReturnOf(guarded, a);
            && Count(log, Started) == 1 && Count(log, FailedOnce) <= 1
            && 1 == Count(log, Completed) + Count(log, FailedOnce) + Count(log, Hit) + NoMore(r)
            && Count(log, CountedDead) == (if Count(log, FailedOnce) > 0 && r == Nil then 1 else 0)
  {
    hide PublisherEffects, IsPermanentError;
    if a.setProcessing { PublisherCounts(a); }
  }

  /** Over any deliveries, every one that was started is accounted for exactly once: it completed, it failed, it
      was a duplicate, or it returned an error of the store; and the dead ones are the failed ones that returned
      nil. */
  lemma {:induction false} Conservation(guarded: bool, deliveries: seq<Answers>)
    ensures var log := EffectsOfAll(guarded, deliveries);
            && Count(log, Started) == |deliveries|
            && Count(log, Started)
               == Count(log, Completed) + Count(log, FailedOnce) + Count(log, Hit) + StoreErrors(guarded, deliveries)
            && Count(log, CountedDead) == FailedForGood(guarded, deliveries)
  {
    if deliveries != [] {
      Conservation(guarded, deliveries[..|deliveries| - 1]);
      OneDelivery(guarded, deliveries[|deliveries| - 1]);
      hide EffectsOf, ReturnOf, NoMore;
    }
  }

  // ----- A store that keeps to the transition table -----

  /** The answers of a store that holds the task in this status and refuses moves outside the table. */
  function Checked(status: PublishTaskStatus, a: Answers): Answers {
    a.(setProcessing := status.CanTransitionTo(Processing),
       setSucceeded := Processing.CanTransitionTo(Succeeded),
       setDead := Processing.CanTransitionTo(Dead))
  }

  predicate CallsPublisher(guarded: bool, a: Answers) {
    !(guarded && a.guard.Held?) && a.setProcessing
  }

  lemma {:induction false} CallsPublisherMeans(guarded: bool, a: Answers)
    ensures CallsPublisher(guarded, a) <==> exists answer :: Called(answer) in EffectsOf(guarded, a)
    ensures CallsPublisher(guarded, a) <==> (guarded ==> a.guard in {Acquired, GuardFailed}) && a.setProcessing
    ensures CallsPublisher(guarded, a) && guarded ==> Asked(Held) !in EffectsOf(guarded, a)
  {
    if CallsPublisher(guarded, a) {
      var log := EffectsOf(guarded, a);
      var lead := if guarded then [Started, Asked(a.guard)] else [Started];
      assert log[|lead| + 1] == Called(a.publish);
    }
  }

  /** The last accepted write of the delivery is the task's new status. */
  function StatusAfter(guarded: bool, status: PublishTaskStatus, a: Answers): PublishTaskStatus {
    LastAccepted(status, EffectsOf(guarded, Checked(status, a)))
  }

  function LastAccepted(status: PublishTaskStatus, log: seq<Effect>): PublishTaskStatus {
    if log == [] then status
    else if log[|log| - 1].Wrote? && log[|log| - 1].accepted then log[|log| - 1].status
    else LastAccepted(status, log[..|log| - 1])
  }

  function StatusAfterAll(guarded: bool, status: PublishTaskStatus, deliveries: seq<Answers>): PublishTaskStatus {
    if deliveries == [] then status
    else StatusAfter(guarded, StatusAfterAll(guarded, status, deliveries[..|deliveries| - 1]),
                     deliveries[|deliveries| - 1])
  }

  /** How many of the deliveries of one task call the publisher. */
  function PublisherCalls(guarded: bool, status: PublishTaskStatus, deliveries: seq<Answers>): nat {
    if deliveries == [] then 0
    else
      var before := StatusAfterAll(guarded, status, deliveries[..|deliveries| - 1]);
      PublisherCalls(guarded, status, deliveries[..|deliveries| - 1])
      + (if CallsPublisher(guarded, Checked(before, deliveries[|deliveries| - 1])) then 1 else 0)
  }

  lemma AcceptedStep(status: PublishTaskStatus, log: seq<Effect>, e: Effect)
    ensures LastAccepted(status, log + [e]) == if e.Wrote? && e.accepted then e.status else LastAccepted(status, log)
  {
    assert (log + [e])[..|log|] == log;
  }

  lemma {:induction false} LastAcceptedOfParts(status: PublishTaskStatus, log: seq<Effect>, tail: seq<Effect>)
    ensures LastAccepted(status, log + tail) == LastAccepted(LastAccepted(status, log), tail)
  {
    if tail == [] {
      assert log + tail == log;
    } else {
      hide LastAccepted;
      var n := |tail| - 1;
      LastAcceptedOfParts(status, log, tail[..n]);
      AcceptedStep(status, log + tail[..n], tail[n]);
      AcceptedStep(LastAccepted(status, log), tail[..n], tail[n]);
      assert log + tail == (log + tail[..n]) + [tail[n]];
      assert tail == tail[..n] + [tail[n]];
    }
  }

  lemma OneStatus(guarded: bool, status: PublishTaskStatus, a: Answers)
    ensures StatusAfter(guarded, status, a)
         == (if !CallsPublisher(guarded, Checked(status, a)) then status
             else if a.publish.Succeeds? && a.record then Succeeded
             else Processing)
  {
    var c := Checked(status, a);
    var lead := if guarded then [Started, Asked(a.guard)] else [Started];
    LastOfTwo(status, Started, Asked(a.guard));
    assert LastAccepted(status, lead) == status by { AcceptedStep(status, [], Started); }
    var tail := EffectsOf(guarded, c)[|lead|..];
    assert EffectsOf(guarded, c) == lead + tail;
    LastAcceptedOfParts(status, lead, tail);
    if CallsPublisher(guarded, c) {
      assert tail == [Wrote(Processing, true)] + PublisherEffects(c);
      AcceptedStep(status, [], Wrote(Processing, true));
      LastAcceptedOfParts(status, [Wrote(Processing, true)], PublisherEffects(c));
      PublisherStatus(c);
    } else if guarded && a.guard.Held? {
      AcceptedStep(status, [], Hit);
    } else {
      assert tail == [Wrote(Processing, false)];
      AcceptedStep(status, [], Wrote(Processing, false));
    }
  }

  lemma LastOfTwo(status: PublishTaskStatus, one: Effect, two: Effect)
    requires !one.Wrote? && !two.Wrote?
    ensures LastAccepted(status, [one, two]) == status
  {
    AcceptedStep(status, [], one);
    AcceptedStep(status, [one], two);
    assert [one] + [two] == [one, two];
  }

  lemma PublisherStatus(c: Answers)
    requires c.setSucceeded && !c.setDead
    ensures LastAccepted(Processing, PublisherEffects(c)) ==
            if c.publish.Succeeds? && c.record then Succeeded else Processing
  {
    var called := Called(c.publish);
    AcceptedStep(Processing, [], called);
    if c.publish.Fails? {
      AcceptedStep(Processing, [called], FailedOnce);
      AcceptedStep(Processing, [called, FailedOnce], Wrote(Dead, false));
      AcceptedStep(Processing, [called, FailedOnce, Wrote(Dead, false)], CountedDead);
      assert PublisherEffects(c) == [called, FailedOnce]
          || PublisherEffects(c) == [called, FailedOnce] + [Wrote(Dead, false)] + [CountedDead];
    } else {
      AcceptedStep(Processing, [called], Recorded(c.record));
      AcceptedStep(Processing, [called, Recorded(c.record)], Wrote(Succeeded, true));
      AcceptedStep(Processing, [called, Recorded(c.record), Wrote(Succeeded, true)], Completed);
      assert PublisherEffects(c) == [called, Recorded(c.record)]
          || PublisherEffects(c) == [called, Recorded(c.record)] + [Wrote(Succeeded, true)] + [Completed];
    }
  }

  lemma {:induction false} CalledOnce(guarded: bool, status: PublishTaskStatus, deliveries: seq<Answers>)
    requires status.CanTransitionTo(Processing)
    ensures var now := StatusAfterAll(guarded, status, deliveries);
            var calls := PublisherCalls(guarded, status, deliveries);
            (calls == 0 && now == status) || (calls == 1 && now in [Processing, Succeeded])
  {
    hide StatusAfter;
    if deliveries != [] {
      var before, last := deliveries[..|deliveries| - 1], deliveries[|deliveries| - 1];
      CalledOnce(guarded, status, before);
      OneStatus(guarded, StatusAfterAll(guarded, status, before), last);
    }
  }

  /** Over a store that keeps to the transition table, no sequence of deliveries calls the publisher twice for one
      task: a delivery that failed leaves the task processing, and every redelivery that gets past the guard is
      then refused at its first write. Dead is never stored. */
  lemma {:induction false} NoSecondAttempt(guarded: bool, status: PublishTaskStatus, deliveries: seq<Answers>,
                                           next: Answers)
    requires status.CanTransitionTo(Processing)
    ensures var now := StatusAfterAll(guarded, status, deliveries);
            var calls := PublisherCalls(guarded, status, deliveries);
            && calls <= 1 && now != Dead
            && (calls == 0 <==> now == status)
            && (calls == 1 && !(guarded && next.guard.Held?) ==>
                ReturnOf(guarded, Checked(now, next)) == StoreRefused(Processing))
  {
    CalledOnce(guarded, status, deliveries);
    hide StatusAfterAll, PublisherCalls;
  }

  /** The guard holds the delivery back. */
  predicate HeldBack(guarded: bool, a: Answers) {
    guarded && a.guard.Held?
  }

  /** And the first delivery that the guard does not hold back does call it, and decides what is stored: succeeded if
      the publisher succeeded and the result was recorded, and processing otherwise, whatever is delivered after it. */
  lemma {:induction false} FirstToPassDecides(guarded: bool, status: PublishTaskStatus, deliveries: seq<Answers>,
                                              k: nat)
    requires status in [Pending, Retrying] && k < |deliveries| && !HeldBack(guarded, deliveries[k])
    requires forall i :: 0 <= i < k ==> HeldBack(guarded, deliveries[i])
    ensures PublisherCalls(guarded, status, deliveries) == 1
    ensures StatusAfterAll(guarded, status, deliveries)
         == if deliveries[k].publish.Succeeds? && deliveries[k].record then Succeeded else Processing
  {
    var n := |deliveries| - 1;
    hide StatusAfter, Checked, CallsPublisher, HeldBack;
    if k < n {
      FirstToPassDecides(guarded, status, deliveries[..n], k);
      PassesThen(guarded, StatusAfterAll(guarded, status, deliveries[..n]), deliveries[n]);
    } else {
      AllHeld(guarded, status, deliveries[..n]);
      PassesThen(guarded, status, deliveries[n]);
    }
  }

  /** Whether one delivery calls the publisher, and what is stored afterwards. */
  lemma PassesThen(guarded: bool, status: PublishTaskStatus, a: Answers)
    ensures CallsPublisher(guarded, Checked(status, a)) <==>
              !HeldBack(guarded, a) && status in [Pending, Retrying]
    ensures StatusAfter(guarded, status, a)
         == (if !CallsPublisher(guarded, Checked(status, a)) then status
             else if a.publish.Succeeds? && a.record then Succeeded
             else Processing)
  {
    OneStatus(guarded, status, a);
    hide StatusAfter;
  }

  lemma {:induction false} AllHeld(guarded: bool, status: PublishTaskStatus, deliveries: seq<Answers>)
    requires forall i :: 0 <= i < |deliveries| ==> HeldBack(guarded, deliveries[i])
    ensures PublisherCalls(guarded, status, deliveries) == 0 && StatusAfterAll(guarded, status, deliveries) == status
  {
    if deliveries != [] {
      var n := |deliveries| - 1;
      AllHeld(guarded, status, deliveries[..n]);
      PassesThen(guarded, status, deliveries[n]);
      hide StatusAfter, HeldBack, Checked, CallsPublisher;
    }
  }

  // ----- The in-memory guard -----

  const LOCK_TTL: int := 10 * 60 * Policy.SECOND

  class InMemoryIdempotencyGuard {
    var entries: map<string, int>   // until when each key is held

    constructor ()
      ensures entries == map[]
    {
      entries := map[];
    }

    /** The clock is read for the test only if the key is there, and once more for the new expiry. */
    method Acquire(key: string, ttl: int, clock: Clock) returns (acquired: bool)
      modifies this, clock
      ensures var held := key in old(entries);
              var now := clock.readings(old(clock.next));
              var later := clock.readings(old(clock.next) + (if held then 1 else 0));
              && acquired == PT.ClaimGranted(AsLeases(old(entries)), key, now)
              && AsLeases(entries) == PT.Claim(AsLeases(old(entries)), key, "", ttl, now, later)
              && clock.next == old(clock.next) + (if held && acquired then 2 else 1)
    {
      if key in entries {
        var now := clock.Now();
        if now < entries[key] {
          return false;
        }
      }
      var later := clock.Now();
      entries := entries[key := later + ttl];
      return true;
    }

    method Release(key: string)
      modifies this
      ensures entries == old(entries) - {key}
    {
      entries := entries - {key};
    }
  }

  /** The guard's keys as leases without a holder. */
  function AsLeases(entries: map<string, int>): PT.LeaseTable {
    map k | k in entries :: PT.Lease("", entries[k])
  }

  /** One delivery, with the clock readings of its Acquire. */
  datatype Delivery = Delivery(payload: Payload, now: int, later: int, answers: Answers)

  /** The Acquire of a delivery. The handler has no other call of the guard, so these are all of them. */
  function AcquireOf(d: Delivery): LeaseOp {
    ClaimOp(Combo(d.payload.contentID, d.payload.platform), "", LOCK_TTL, d.now, d.later)
  }

  function AcquiresOf(deliveries: seq<Delivery>): (ops: seq<LeaseOp>)
    ensures |ops| == |deliveries| && forall i :: 0 <= i < |ops| ==> ops[i] == AcquireOf(deliveries[i])
  {
    seq(|deliveries|, i requires 0 <= i < |deliveries| => AcquireOf(deliveries[i]))
  }

  /** What the guard answers the i-th delivery. */
  function GuardAnswer(deliveries: seq<Delivery>, i: nat): GuardReply
    requires i < |deliveries|
  {
    if PT.ClaimGranted(After(map[], AcquiresOf(deliveries[..i])), AcquireOf(deliveries[i]).key, deliveries[i].now)
    then Acquired
    else Held
  }

  /** With the in-memory guard and a clock that does not go back, two deliveries of the same content and platform
      that both call the publisher acquired their lease at least ten minutes apart: the handler never releases
      it, not even after a failure. */
  lemma {:induction false} PublisherCallsSpaced(deliveries: seq<Delivery>, i: nat, j: nat)
    requires i < j < |deliveries| && Clocked(AcquiresOf(deliveries))
    requires AcquireOf(deliveries[i]).key == AcquireOf(deliveries[j]).key
    requires CallsPublisher(true, deliveries[i].answers.(guard := GuardAnswer(deliveries, i)))
    requires CallsPublisher(true, deliveries[j].answers.(guard := GuardAnswer(deliveries, j)))
    ensures deliveries[j].now >= deliveries[i].later + LOCK_TTL
  {
    var ops := AcquiresOf(deliveries);
    assert AcquiresOf(deliveries[..i]) == ops[..i] && AcquiresOf(deliveries[..j]) == ops[..j];
    ClaimsSpaced(map[], ops, i, j, ops[i].key);
  }

  /** The deliveries of one content and platform that the guard let pass, as claims of their key. */
  lemma AcquiredIsClaim(deliveries: seq<Delivery>, i: nat, key: string)
    requires i < |deliveries|
    ensures ClaimsAt(map[], AcquiresOf(deliveries), i, key)
       <==> AcquireOf(deliveries[i]).key == key && GuardAnswer(deliveries, i).Acquired?
  {
    assert AcquiresOf(deliveries[..i]) == AcquiresOf(deliveries)[..i];
  }

  predicate SamePair(d: Delivery, e: Delivery) {
    d.payload.contentID == e.payload.contentID && d.payload.platform == e.payload.platform
  }

  /** Content ids hold no colon, so deliveries share a key exactly if they are for one content and platform. */
  lemma KeysArePairs(d: Delivery, e: Delivery)
    requires ColonFree(d.payload.contentID) && ColonFree(e.payload.contentID)
    ensures AcquireOf(d).key == AcquireOf(e).key <==> SamePair(d, e)
  {
    if AcquireOf(d).key == AcquireOf(e).key {
      JoinInjective(d.payload.contentID, d.payload.platform, e.payload.contentID, e.payload.platform);
    }
  }

  /** Exactly when the guard lets a redelivery of a content to a platform pass: from ten minutes after the last one that
      it did let pass on, whatever is delivered for other contents and platforms. The publisher is then called if
      processing is accepted. */
  lemma {:induction false} RedeliveryPasses(deliveries: seq<Delivery>, i: nat, j: nat)
    requires i < j < |deliveries| && Clocked(AcquiresOf(deliveries))
    requires forall d :: d in deliveries ==> ColonFree(d.payload.contentID)
    requires SamePair(deliveries[i], deliveries[j]) && GuardAnswer(deliveries, i).Acquired?
    requires forall m: nat :: i < m < j && SamePair(deliveries[m], deliveries[j]) ==>
               !GuardAnswer(deliveries, m).Acquired?
    ensures GuardAnswer(deliveries, j)
         == if deliveries[j].now >= deliveries[i].later + 600_000_000_000 then Acquired else Held
    ensures CallsPublisher(true, deliveries[j].answers.(guard := GuardAnswer(deliveries, j))) <==>
              deliveries[j].now >= deliveries[i].later + 600_000_000_000 && deliveries[j].answers.setProcessing
  {
    var ops, key := AcquiresOf(deliveries), AcquireOf(deliveries[j]).key;
    AcquiredIsClaim(deliveries, i, key);
    forall m: nat | i < m < j ensures !ClaimsAt(map[], ops, m, key) {
      AcquiredIsClaim(deliveries, m, key);
      KeysArePairs(deliveries[m], deliveries[j]);
    }
    LeaseLasts(map[], ops, i, j, key);
    assert AcquiresOf(deliveries[..j]) == ops[..j];
  }

  /** And the first delivery of a content to a platform passes. */
  lemma {:induction false} FirstDeliveryPasses(deliveries: seq<Delivery>, j: nat)
    requires j < |deliveries|
    requires forall d :: d in deliveries ==> ColonFree(d.payload.contentID)
    requires forall m: nat :: m < j && SamePair(deliveries[m], deliveries[j]) ==> !GuardAnswer(deliveries, m).Acquired?
    ensures GuardAnswer(deliveries, j).Acquired?
  {
    var ops, key := AcquiresOf(deliveries), AcquireOf(deliveries[j]).key;
    forall m: nat | m < j ensures !ClaimsAt(map[], ops, m, key) {
      AcquiredIsClaim(deliveries, m, key);
      KeysArePairs(deliveries[m], deliveries[j]);
    }
    NeverClaimed(ops, j, key);
    assert AcquiresOf(deliveries[..j]) == ops[..j];
  }
}
