/** Deliveries of one task that overlap, over a store that keeps to the transition table: each call that module
    Handler records is one atomic step of some delivery, in any interleaving. */
module OverlappingDeliveries {
  import opened Contracts
  import opened Handler

  /** The stored status of the task, and for each delivery the calls it has made and its answers. The store's
      answers are decided when the write happens; all others are arbitrary from the start. */
  datatype State = State(status: PublishTaskStatus, logs: map<nat, seq<Effect>>, answers: map<nat, Answers>)

  datatype Step = Deliver(d: nat, answers: Answers) | Advance(d: nat)

  /** The answers with the store's answer to a write filled in. */
  function Decided(a: Answers, write: PublishTaskStatus, accepted: bool): Answers {
    match write
    case Processing => a.(setProcessing := accepted)
    case Succeeded => a.(setSucceeded := accepted)
    case Dead => a.(setDead := accepted)
    case _ => a
  }

  lemma PublisherWritesThird(a: Answers, m: nat)
    requires m < |PublisherEffects(a)| && PublisherEffects(a)[m].Wrote?
    ensures m == 2 && PublisherEffects(a)[m].status in [Succeeded, Dead]
    ensures PublisherEffects(a)[m].status == Succeeded <==> a.publish.Succeeds?
  {
    hide IsPermanentError;
  }

  /** Deciding a write changes nothing before it, and the write gets the decided answer. */
  lemma DecidedLater(a: Answers, m: nat, accepted: bool)
    requires m < |PublisherEffects(a)| && PublisherEffects(a)[m].Wrote?
    ensures var e := PublisherEffects(a)[m];
            var a' := Decided(a, e.status, accepted);
            && m < |PublisherEffects(a')| && a'.setProcessing == a.setProcessing && a'.guard == a.guard
            && PublisherEffects(a')[..m] == PublisherEffects(a)[..m]
            && PublisherEffects(a')[m] == Wrote(e.status, accepted)
  {
    hide IsPermanentError;
    PublisherWritesThird(a, m);
  }

  lemma DecidedKeeps(guarded: bool, a: Answers, k: nat, accepted: bool)
    requires k < |EffectsOf(guarded, a)| && EffectsOf(guarded, a)[k].Wrote?
    ensures var e := EffectsOf(guarded, a)[k];
            var a' := Decided(a, e.status, accepted);
            && k < |EffectsOf(guarded, a')| && EffectsOf(guarded, a')[..k] == EffectsOf(guarded, a)[..k]
            && EffectsOf(guarded, a')[k] == Wrote(e.status, accepted)
  {
    hide PublisherEffects;
    var lead := if guarded then [Started, Asked(a.guard)] else [Started];
    var m := k - |lead| - 1;
    if m >= 0 {
      assert EffectsOf(guarded, a) == lead + [Wrote(Processing, true)] + PublisherEffects(a);
      assert EffectsOf(guarded, a)[k] == PublisherEffects(a)[m];
      DecidedLater(a, m, accepted);
      var a' := Decided(a, EffectsOf(guarded, a)[k].status, accepted);
      assert EffectsOf(guarded, a') == lead + [Wrote(Processing, true)] + PublisherEffects(a');
      assert EffectsOf(guarded, a)[..k] == lead + [Wrote(Processing, true)] + PublisherEffects(a)[..m];
      assert EffectsOf(guarded, a')[..k] == lead + [Wrote(Processing, true)] + PublisherEffects(a')[..m];
    }
  }

  function Next(guarded: bool, s: State, step: Step): State {
    match step
    case Deliver(d, a) => if d in s.logs then s else s.(logs := s.logs[d := []], answers := s.answers[d := a])
    case Advance(d) =>
      if d !in s.logs || d !in s.answers || |s.logs[d]| >= |EffectsOf(guarded, s.answers[d])| then s
      else
        var k := |s.logs[d]|;
        var e := EffectsOf(guarded, s.answers[d])[k];
        if !e.Wrote? then s.(logs := s.logs[d := s.logs[d] + [e]])
        else
          var accepted := s.status.CanTransitionTo(e.status);
          State(if accepted then e.status else s.status,
                s.logs[d := s.logs[d] + [Wrote(e.status, accepted)]],
                s.answers[d := Decided(s.answers[d], e.status, accepted)])
  }

  function RunFrom(guarded: bool, s: State, steps: seq<Step>): State {
    if steps == [] then s
    else Next(guarded, RunFrom(guarded, s, steps[..|steps| - 1]), steps[|steps| - 1])
  }

  function Initial(status: PublishTaskStatus): State {
    State(status, map[], map[])
  }

  // ----- What every step keeps -----

  predicate Passed(log: seq<Effect>) {
    Wrote(Processing, true) in log
  }

  predicate CallsMade(log: seq<Effect>) {
    exists i :: 0 <= i < |log| && log[i].Called?
  }

  /** What a delivery has done is the beginning of a whole delivery. */
  predicate LogOk(guarded: bool, s: State, d: nat)
    requires d in s.logs
  {
    d in s.answers && s.logs[d] <= EffectsOf(guarded, s.answers[d])
  }

  ghost predicate Inv(guarded: bool, start: PublishTaskStatus, s: State) {
    && (forall d :: d in s.logs ==> LogOk(guarded, s, d))
    && (forall d, d' :: d in s.logs && d' in s.logs && Passed(s.logs[d]) && Passed(s.logs[d']) ==> d == d')
    && ((exists d :: d in s.logs && Passed(s.logs[d])) ==> s.status in [Processing, Succeeded])
    && ((forall d :: d in s.logs ==> !Passed(s.logs[d])) ==> s.status == start)
  }

  /** A later write of a delivery comes after its accepted first one. */
  lemma LaterWrites(guarded: bool, a: Answers, k: nat)
    requires k < |EffectsOf(guarded, a)| && EffectsOf(guarded, a)[k].Wrote? &&
             EffectsOf(guarded, a)[k].status != Processing
    ensures Passed(EffectsOf(guarded, a)[..k]) && EffectsOf(guarded, a)[k].status in [Succeeded, Dead]
  {
    hide PublisherEffects;
    var lead := if guarded then [Started, Asked(a.guard)] else [Started];
    assert EffectsOf(guarded, a) == lead + [Wrote(Processing, true)] + PublisherEffects(a);
    assert EffectsOf(guarded, a)[..k][|lead|] == Wrote(Processing, true);
    assert EffectsOf(guarded, a)[k] == PublisherEffects(a)[k - |lead| - 1];
    PublisherWritesThird(a, k - |lead| - 1);
  }

  /** And so does the call of the publisher. */
  lemma CallsArePassed(guarded: bool, a: Answers, log: seq<Effect>)
    requires log <= EffectsOf(guarded, a) && CallsMade(log)
    ensures Passed(log)
  {
    hide EffectsOf;
    var i :| 0 <= i < |log| && log[i].Called?;
    DeliveryOrder(guarded, a, i);
    assert EffectsOf(guarded, a)[i] == log[i] && EffectsOf(guarded, a)[..i] == log[..i];
    assert log[i - 1] == Wrote(Processing, true);
  }

  lemma AdvanceLog(guarded: bool, s: State, d: nat)
    requires d in s.logs && LogOk(guarded, s, d)
    ensures var s' := Next(guarded, s, Advance(d));
            d in s'.logs && LogOk(guarded, s', d)
  {
    hide EffectsOf, Decided, PublishTaskStatus.CanTransitionTo;
    var log, a := s.logs[d], s.answers[d];
    var all := EffectsOf(guarded, a);
    assert log == all[..|log|];
    if |log| < |all| {
      if all[|log|].Wrote? {
        var accepted := s.status.CanTransitionTo(all[|log|].status);
        DecidedKeeps(guarded, a, |log|, accepted);
        OneLonger(EffectsOf(guarded, Decided(a, all[|log|].status, accepted)), |log|);
      } else {
        OneLonger(all, |log|);
      }
    }
  }

  lemma OneLonger(all: seq<Effect>, k: nat)
    requires k < |all|
    ensures all[..k] + [all[k]] <= all
  {
  }

  lemma LogsKept(guarded: bool, s: State, step: Step)
    requires forall d :: d in s.logs ==> LogOk(guarded, s, d)
    ensures var s' := Next(guarded, s, step); forall d :: d in s'.logs ==> LogOk(guarded, s', d)
  {
    var s' := Next(guarded, s, step);
    forall d | d in s'.logs ensures LogOk(guarded, s', d) {
      if d in s.logs {
        assert LogOk(guarded, s, d);
        if step == Advance(d) { AdvanceLog(guarded, s, d); }
      }
      hide EffectsOf, Decided;
    }
  }

  lemma LongerPasses(log: seq<Effect>, e: Effect)
    ensures Passed(log + [e]) <==> Passed(log) || e == Wrote(Processing, true)
  {
  }

  lemma TableFacts(start: PublishTaskStatus)
    requires start.CanTransitionTo(Processing)
    ensures start !in [Processing, Succeeded] && !Processing.CanTransitionTo(Dead) && !Succeeded.CanTransitionTo(Dead)
    ensures !Processing.CanTransitionTo(Processing) && !Succeeded.CanTransitionTo(Processing)
  {
  }

  /** What one call of one delivery does to who has passed, and to the stored status. */
  lemma AdvancePasses(guarded: bool, start: PublishTaskStatus, s: State, d: nat)
    requires Inv(guarded, start, s) && start.CanTransitionTo(Processing) && d in s.logs
    ensures var s' := Next(guarded, s, Advance(d));
            && s'.logs.Keys == s.logs.Keys && (forall d' :: d' in s.logs && d' != d ==> s'.logs[d'] == s.logs[d'])
            && (Passed(s.logs[d]) ==> Passed(s'.logs[d]) && s'.status in [Processing, Succeeded])
            && (!Passed(s.logs[d]) && !Passed(s'.logs[d]) ==> s'.status == s.status)
            && (!Passed(s.logs[d]) && Passed(s'.logs[d]) ==>
                s.status !in [Processing, Succeeded] && s'.status == Processing)
  {
    hide EffectsOf, Decided, PublishTaskStatus.CanTransitionTo, Passed;
    TableFacts(start);
    assert LogOk(guarded, s, d);
    var log, a := s.logs[d], s.answers[d];
    var all := EffectsOf(guarded, a);
    assert all[..|log|] == log;
    if |log| < |all| {
      var e := all[|log|];
      if e.Wrote? {
        LongerPasses(log, Wrote(e.status, s.status.CanTransitionTo(e.status)));
        if e.status != Processing { LaterWrites(guarded, a, |log|); }
      } else {
        LongerPasses(log, e);
      }
    }
  }

  lemma AdvanceKeepsInv(guarded: bool, start: PublishTaskStatus, s: State, d: nat)
    requires Inv(guarded, start, s) && start.CanTransitionTo(Processing) && d in s.logs
    ensures Inv(guarded, start, Next(guarded, s, Advance(d)))
  {
    hide LogOk, EffectsOf, Decided, PublishTaskStatus.CanTransitionTo, Passed, Next;
    LogsKept(guarded, s, Advance(d));
    TableFacts(start);
    AdvancePasses(guarded, start, s, d);
    var s' := Next(guarded, s, Advance(d));
    assert forall d' :: d' in s.logs && Passed(s.logs[d']) ==> Passed(s'.logs[d']);
  }

  lemma DeliverKeepsInv(guarded: bool, start: PublishTaskStatus, s: State, step: Step)
    requires Inv(guarded, start, s) && (step.Deliver? || step.d !in s.logs)
    ensures Inv(guarded, start, Next(guarded, s, step))
  {
    hide LogOk, EffectsOf, Decided, PublishTaskStatus.CanTransitionTo, Passed, Next;
    LogsKept(guarded, s, step);
    DeliverPasses(guarded, s, step);
    var s' := Next(guarded, s, step);
    assert forall d :: d in s.logs && Passed(s.logs[d]) ==> Passed(s'.logs[d]);
  }

  lemma InvKept(guarded: bool, start: PublishTaskStatus, s: State, step: Step)
    requires Inv(guarded, start, s) && start.CanTransitionTo(Processing)
    ensures Inv(guarded, start, Next(guarded, s, step))
  {
    hide *;
    if step.Advance? && step.d in s.logs {
      AdvanceKeepsInv(guarded, start, s, step.d);
    } else {
      DeliverKeepsInv(guarded, start, s, step);
    }
  }

  lemma DeliverPasses(guarded: bool, s: State, step: Step)
    requires step.Deliver? || step.d !in s.logs
    ensures var s' := Next(guarded, s, step);
            && s'.status == s.status
            && (forall d :: d in s.logs ==> d in s'.logs && s'.logs[d] == s.logs[d])
            && (forall d :: d in s'.logs && d !in s.logs ==> !Passed(s'.logs[d]))
  {
  }

  lemma {:induction false} InvAlways(guarded: bool, start: PublishTaskStatus, steps: seq<Step>)
    requires start.CanTransitionTo(Processing)
    ensures Inv(guarded, start, RunFrom(guarded, Initial(start), steps))
  {
    if steps != [] {
      InvAlways(guarded, start, steps[..|steps| - 1]);
      hide Inv, Next;
      InvKept(guarded, start, RunFrom(guarded, Initial(start), steps[..|steps| - 1]), steps[|steps| - 1]);
    }
  }

  /** However deliveries of one task overlap, at most one of them ever calls the publisher, and Dead is never stored:
      processing is accepted at most once. Each delivery is still the beginning of a delivery of its own, so all
      that holds for those holds here. */
  lemma {:induction false} OnePublisherCall(guarded: bool, start: PublishTaskStatus, steps: seq<Step>, d: nat, d': nat)
    requires start.CanTransitionTo(Processing)
    ensures var s := RunFrom(guarded, Initial(start), steps);
            && s.status in [start, Processing, Succeeded]
            && (d in s.logs ==> d in s.answers && s.logs[d] <= EffectsOf(guarded, s.answers[d]))
            && (d in s.logs && d' in s.logs && CallsMade(s.logs[d]) && CallsMade(s.logs[d']) ==> d == d')
  {
    InvAlways(guarded, start, steps);
    var s := RunFrom(guarded, Initial(start), steps);
    hide EffectsOf, RunFrom;
    assert d in s.logs ==> LogOk(guarded, s, d);
    assert d' in s.logs ==> LogOk(guarded, s, d');
    if d in s.logs && d' in s.logs && CallsMade(s.logs[d]) && CallsMade(s.logs[d']) {
      CallsArePassed(guarded, s.answers[d], s.logs[d]);
      CallsArePassed(guarded, s.answers[d'], s.logs[d']);
    }
  }

  // ----- What the store answers -----

  predicate Tried(log: seq<Effect>) {
    Wrote(Processing, true) in log || Wrote(Processing, false) in log
  }

  predicate Finished(log: seq<Effect>) {
    Wrote(Succeeded, true) in log
  }

  predicate NoneRefusedLate(log: seq<Effect>) {
    Wrote(Succeeded, false) !in log && Wrote(Dead, true) !in log
  }

  ghost predicate WritesOk(s: State) {
    && (forall d :: d in s.logs ==> NoneRefusedLate(s.logs[d]))
    && ((exists d :: d in s.logs && Tried(s.logs[d])) ==> exists d :: d in s.logs && Passed(s.logs[d]))
    && (s.status == Succeeded <==> exists d :: d in s.logs && Finished(s.logs[d]))
  }

  /** Only one effect of a delivery writes succeeded, and it comes after the accepted write of processing. */
  lemma SucceededOnce(guarded: bool, a: Answers, log: seq<Effect>, accepted: bool)
    requires log <= EffectsOf(guarded, a) && Wrote(Succeeded, accepted) in log
    ensures Passed(log)
    ensures |log| < |EffectsOf(guarded, a)| ==>
              !EffectsOf(guarded, a)[|log|].Wrote? || EffectsOf(guarded, a)[|log|].status != Succeeded
  {
    hide PublisherEffects;
    var lead, all := if guarded then [Started, Asked(a.guard)] else [Started], EffectsOf(guarded, a);
    var k :| 0 <= k < |log| && log[k] == Wrote(Succeeded, accepted);
    assert all[k] == log[k];
    LaterWrites(guarded, a, k);
    assert all == lead + [Wrote(Processing, true)] + PublisherEffects(a);
    var m := k - |lead| - 1;
    assert all[k] == PublisherEffects(a)[m];
    PublisherWritesThird(a, m);
    assert log[..k] == all[..k];
    assert forall e :: e in log[..k] ==> e in log;
    if |log| < |all| {
      assert all[|log|] == PublisherEffects(a)[|log| - |lead| - 1];
      if PublisherEffects(a)[|log| - |lead| - 1].Wrote? { PublisherWritesThird(a, |log| - |lead| - 1); }
    }
  }

  lemma OneMore(log: seq<Effect>, e: Effect)
    ensures Tried(log + [e]) <==> Tried(log) || (e.Wrote? && e.status == Processing)
    ensures Finished(log + [e]) <==> Finished(log) || e == Wrote(Succeeded, true)
    ensures NoneRefusedLate(log + [e]) <==>
              NoneRefusedLate(log) && e != Wrote(Succeeded, false) && e != Wrote(Dead, true)
    ensures Passed(log + [e]) <==> Passed(log) || e == Wrote(Processing, true)
  {
    if Tried(log + [e]) && e.Wrote? && e.status == Processing { assert e.accepted || e == Wrote(Processing, false); }
  }

  /** What the store answers the next write of a delivery. */
  lemma WriteAnswered(guarded: bool, start: PublishTaskStatus, s: State, d: nat)
    requires Inv(guarded, start, s) && start.CanTransitionTo(Processing) && WritesOk(s) && d in s.logs
    requires d in s.answers && |s.logs[d]| < |EffectsOf(guarded, s.answers[d])|
    requires EffectsOf(guarded, s.answers[d])[|s.logs[d]|].Wrote?
    ensures var e := EffectsOf(guarded, s.answers[d])[|s.logs[d]|];
            match e.status
            case Processing =>
              s.status.CanTransitionTo(Processing) <==> forall d' :: d' in s.logs ==> !Passed(s.logs[d'])
            case Succeeded => Passed(s.logs[d]) && s.status == Processing
            case _ => e.status == Dead && !s.status.CanTransitionTo(Dead) && Passed(s.logs[d])
  {
    hide EffectsOf, Passed, Finished, NoneRefusedLate, Tried;
    assert LogOk(guarded, s, d);
    TableFacts(start);
    var a, log := s.answers[d], s.logs[d];
    var all := EffectsOf(guarded, a);
    assert all[..|log|] == log;
    if all[|log|].status != Processing {
      LaterWrites(guarded, a, |log|);
      if s.status == Succeeded {
        var d' :| d' in s.logs && Finished(s.logs[d']);
        FinishedIsPassed(guarded, s, d');
        assert d' == d;
        SucceededOnce(guarded, a, log, true) by { assert Wrote(Succeeded, true) in log by { IsFinished(log); } }
      }
    }
  }

  lemma IsFinished(log: seq<Effect>)
    requires Finished(log)
    ensures Wrote(Succeeded, true) in log
  {
  }

  lemma FinishedIsPassed(guarded: bool, s: State, d: nat)
    requires d in s.logs && LogOk(guarded, s, d) && Finished(s.logs[d])
    ensures Passed(s.logs[d])
  {
    hide EffectsOf;
    SucceededOnce(guarded, s.answers[d], s.logs[d], true);
  }

  /** No effect more, at most a delivery more. */
  lemma NoEffectMore(s: State, s': State, d: nat)
    requires WritesOk(s) && s'.status == s.status
    requires s'.logs == s.logs || (d !in s.logs && s'.logs == s.logs[d := []])
    ensures WritesOk(s')
  {
    hide Passed, Finished, NoneRefusedLate, Tried;
    NothingWritten();
    assert forall d :: d in s.logs ==> d in s'.logs && s'.logs[d] == s.logs[d];
  }

  /** One more effect in one log. */
  lemma OneEffectMore(s: State, s': State, d: nat, e: Effect)
    requires WritesOk(s) && d in s.logs && s'.logs == s.logs[d := s.logs[d] + [e]]
    requires e.Wrote? && e.status == Processing && !e.accepted ==> exists d' :: d' in s.logs && Passed(s.logs[d'])
    requires e != Wrote(Succeeded, false) && e != Wrote(Dead, true)
    requires s'.status == Succeeded <==> s.status == Succeeded || e == Wrote(Succeeded, true)
    ensures WritesOk(s')
  {
    hide Passed, Finished, NoneRefusedLate, Tried;
    OneMore(s.logs[d], e);
    assert forall d' :: d' in s.logs && d' != d ==> s'.logs[d'] == s.logs[d'];
    assert forall d' :: d' in s.logs && Passed(s.logs[d']) ==> Passed(s'.logs[d']);
    assert forall d' :: d' in s.logs && Finished(s.logs[d']) ==> Finished(s'.logs[d']);
  }

  lemma WritesKept(guarded: bool, start: PublishTaskStatus, s: State, step: Step)
    requires Inv(guarded, start, s) && start.CanTransitionTo(Processing) && WritesOk(s)
    ensures WritesOk(Next(guarded, s, step))
  {
    hide EffectsOf, Decided, Inv, LogOk, WritesOk;
    var s' := Next(guarded, s, step);
    if step.Deliver? || step.d !in s.logs {
      NoEffectMore(s, s', step.d);
    } else if step.d in s.answers && |s.logs[step.d]| < |EffectsOf(guarded, s.answers[step.d])| {
      var e := EffectsOf(guarded, s.answers[step.d])[|s.logs[step.d]|];
      if e.Wrote? {
        WriteAnswered(guarded, start, s, step.d);
        OneEffectMore(s, s', step.d, Wrote(e.status, s.status.CanTransitionTo(e.status)));
      } else {
        OneEffectMore(s, s', step.d, e);
      }
    }
  }

  lemma NothingWritten()
    ensures NoneRefusedLate([]) && !Tried([]) && !Finished([]) && !Passed([])
  {
  }

  /** In every interleaving the store accepts the first write of processing and no other, refuses every write of dead,
      and never refuses one of succeeded; the task is stored as succeeded exactly if a delivery wrote that. */
  lemma {:induction false} WritesDecided(guarded: bool, start: PublishTaskStatus, steps: seq<Step>)
    requires start.CanTransitionTo(Processing)
    ensures var s := RunFrom(guarded, Initial(start), steps);
            && ((exists d :: d in s.logs && Tried(s.logs[d])) <==> exists d :: d in s.logs && Passed(s.logs[d]))
            && (forall d :: d in s.logs ==> Wrote(Succeeded, false) !in s.logs[d] && Wrote(Dead, true) !in s.logs[d])
            && (s.status == Succeeded <==> exists d :: d in s.logs && Wrote(Succeeded, true) in s.logs[d])
  {
    WritesAlways(guarded, start, steps);
    hide RunFrom;
    var s := RunFrom(guarded, Initial(start), steps);
    assert forall d :: d in s.logs && Passed(s.logs[d]) ==> Tried(s.logs[d]);
    assert forall d :: d in s.logs ==> NoneRefusedLate(s.logs[d]);
    assert forall d :: d in s.logs ==> (Finished(s.logs[d]) <==> Wrote(Succeeded, true) in s.logs[d]);
  }

  lemma {:induction false} WritesAlways(guarded: bool, start: PublishTaskStatus, steps: seq<Step>)
    requires start.CanTransitionTo(Processing)
    ensures WritesOk(RunFrom(guarded, Initial(start), steps))
  {
    TableFacts(start);
    if steps != [] {
      var before := steps[..|steps| - 1];
      WritesAlways(guarded, start, before);
      InvAlways(guarded, start, before);
      hide Inv, Next, WritesOk;
      WritesKept(guarded, start, RunFrom(guarded, Initial(start), before), steps[|steps| - 1]);
    }
  }
}
