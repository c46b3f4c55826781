/** The theorems about every run of module Protocol: any number of calls, any interleaving, any clock, any
    drawn ids, any adapter replies, and other actors in between. */
module ProtocolTheorems {
  import opened Contracts
  import opened Keys
  import opened Policy
  import opened PublishTables
  import opened Protocol
  import opened ProtocolLocks
  import opened ProtocolKeys
  import opened ProtocolLedger
  import opened ProtocolSafety
  import opened ProtocolReports

  ghost predicate Inv(s: State) {
    LocksOk(s) && KeysOk(s) && TasksOk(s) && ReportsOk(s)
  }

  // ----- Every step keeps the invariant -----

  /** A call that moves outside the platform work leaves tasks and reports alone. */
  lemma PassingKeeps(s: State, s': State, pid: nat)
    requires TasksOk(s) && ReportsOk(s) && TaskQuiet(s, s', pid) && s'.registered == s.registered
    requires s'.calls[pid].contentID == s.calls[pid].contentID && s'.calls[pid].platforms == s.calls[pid].platforms
    requires s'.calls[pid].reports == s.calls[pid].reports
    ensures TasksOk(s') && ReportsOk(s')
  {
    TaskQuietKeepsTasks(s, s', pid);
    QuietIsStable(s, s', pid);
    assert CallReportsOk(s, s.calls[pid]);
    StableKeepsReports(s, s', s.calls[pid], s'.calls[pid]);
    hide TasksOk, CallReportsOk, RestStable;
    MoverKeepsReports(s, s', pid);
  }

  lemma MakeTaskIsStable(s: State, pid: nat, id: string)
    requires TasksOk(s) && pid in s.calls && s.calls[pid].at.MakeTask? && id !in s.work.table.tasks
    ensures RestStable(s, MakeTaskStep(s, pid, s.calls[pid], id))
  {
    hide TasksOk;
  }

  lemma MakeTaskReports(s: State, pid: nat, id: string)
    requires TasksOk(s) && ReportsOk(s) && pid in s.calls && s.calls[pid].at.MakeTask? && id !in s.work.table.tasks
    ensures ReportsOk(MakeTaskStep(s, pid, s.calls[pid], id))
  {
    var s' := MakeTaskStep(s, pid, s.calls[pid], id);
    MakeTaskIsStable(s, pid, id);
    assert CallReportsOk(s, s.calls[pid]);
    hide TasksOk, CallReportsOk, RestStable, CreateStep, TaskExists;
    StableKeepsReports(s, s', s.calls[pid], s'.calls[pid]);
    MoverKeepsReports(s, s', pid);
  }

  lemma RunningKeeps(s: State, pid: nat, id: string, reply: Reply)
    requires LocksOk(s) && TasksOk(s) && ReportsOk(s) && pid in s.calls && s.calls[pid].at.Running? &&
             id !in s.work.attempts
    ensures var c := s.calls[pid];
            var s' := RunningStep(s, pid, c, RunStep(s.work, c.contentID, Platform(c), c.at.run, id, reply));
            TasksOk(s') && ReportsOk(s')
  {
    var c := s.calls[pid];
    var o := RunStep(s.work, c.contentID, Platform(c), c.at.run, id, reply);
    assert RunOk(s, pid);
    StepWorks(s.work, c.contentID, Platform(c), c.at.run, id, reply);
    assert GoodStep(s, pid, o);
    hide GoodStep, LocksOk, TasksOk, ReportsOk, RunStep;
    RunningKeepsTasks(s, pid, o);
    RunningReports(s, pid, o);
  }

  lemma EarlyMoves(s: State, pid: nat)
    requires TasksOk(s) && ReportsOk(s) && pid in s.calls
    ensures var c := s.calls[pid];
            match c.at
            case Fetch => var s' := Put(s, pid, FetchStep(s.contents, c)); TasksOk(s') && ReportsOk(s')
            case Recheck(seen) => var s' := Put(s, pid, RecheckStep(s.contents, c, seen)); TasksOk(s') && ReportsOk(s')
            case TakeLock => var s' := TakeLockStep(s, pid, c); TasksOk(s') && ReportsOk(s')
            case _ => true
  {
    hide TasksOk, ReportsOk, UpdateContent, LockGranted, GetContent, ContentStatus.CanTransitionTo;
    var c := s.calls[pid];
    match c.at
    case Fetch => PassingKeeps(s, Put(s, pid, FetchStep(s.contents, c)), pid);
    case Recheck(seen) => PassingKeeps(s, Put(s, pid, RecheckStep(s.contents, c, seen)), pid);
    case TakeLock => PassingKeeps(s, TakeLockStep(s, pid, c), pid);
    case _ =>
  }

  lemma LateMoves(s: State, pid: nat, now: int, later: int)
    requires TasksOk(s) && ReportsOk(s) && pid in s.calls
    ensures var c := s.calls[pid];
            match c.at
            case ClaimKey => var s' := ClaimStep(s, pid, c, now, later); TasksOk(s') && ReportsOk(s')
            case FinalCheck => var s' := Put(s, pid, FinalCheckStep(s.contents, c)); TasksOk(s') && ReportsOk(s')
            case FinalWrite => var s' := FinalWriteStep(s, pid, c); TasksOk(s') && ReportsOk(s')
            case _ => true
  {
    var c := s.calls[pid];
    hide TasksOk, ReportsOk, Aggregate, UpdateContent, Claim;
    match c.at
    case ClaimKey => PassingKeeps(s, ClaimStep(s, pid, c, now, later), pid);
    case FinalCheck => PassingKeeps(s, Put(s, pid, FinalCheckStep(s.contents, c)), pid);
    case FinalWrite => PassingKeeps(s, FinalWriteStep(s, pid, c), pid);
    case _ =>
  }

  lemma NextPlatformTasks(s: State, pid: nat)
    requires TasksOk(s) && pid in s.calls && (s.calls[pid].at.NextPlatform? || s.calls[pid].at.LookUp?)
    ensures s.calls[pid].at.NextPlatform? ==> TasksOk(Put(s, pid, NextPlatformStep(s.registered, s.calls[pid])))
    ensures s.calls[pid].at.LookUp? ==> TasksOk(Put(s, pid, LookUpStep(s.work.table, s.calls[pid])))
  {
    hide TasksOk, LookUpTask;
    if s.calls[pid].at.NextPlatform? {
      TaskQuietKeepsTasks(s, Put(s, pid, NextPlatformStep(s.registered, s.calls[pid])), pid);
    } else {
      TaskQuietKeepsTasks(s, Put(s, pid, LookUpStep(s.work.table, s.calls[pid])), pid);
    }
  }

  lemma MoveKeepsInv(s: State, pid: nat, now: int, later: int, id: string, reply: Reply)
    requires Inv(s) && pid in s.calls && id !in s.work.table.tasks && id !in s.work.attempts
    ensures Inv(MoveStep(s, pid, now, later, id, reply))
  {
    MoveKeepsLocks(s, pid, now, later, id, reply);
    MoveKeepsKeys(s, pid, now, later, id, reply);
    hide LocksOk, KeysOk, TasksOk, ReportsOk, RunningStep, ClaimStep, MakeTaskStep, TakeLockStep, FinalWriteStep,
         LookUpStep, FetchStep, RecheckStep, NextPlatformStep, FinalCheckStep, RunStep;
    match s.calls[pid].at
    case NextPlatform =>
      NextPlatformTasks(s, pid);
      NextPlatformReports(s, pid);
    case LookUp =>
      NextPlatformTasks(s, pid);
      LookUpReports(s, pid);
    case MakeTask =>
      MakeTaskKeepsTasks(s, pid, id);
      MakeTaskReports(s, pid, id);
    case Running(_) => RunningKeeps(s, pid, id, reply);
    case _ =>
      EarlyMoves(s, pid);
      LateMoves(s, pid, now, later);
  }

  /** The tasks are untouched, and the only new calls have just begun. */
  ghost predicate Framed(s: State, s': State) {
    && s'.work == s.work && s'.registered == s.registered
    && (forall p :: p in s.calls ==> p in s'.calls && s'.calls[p] == s.calls[p])
    && (forall p :: p in s'.calls && p !in s.calls ==> s'.calls[p].at.Fetch? && s'.calls[p].reports == [])
  }

  lemma FrameKeepsRest(s: State, s': State)
    requires Framed(s, s')
    ensures RestStable(s, s')
  {
  }

  lemma FrameKeepsTasks(s: State, s': State)
    requires TasksOk(s) && Framed(s, s')
    ensures TasksOk(s')
  {
    forall p | p in s'.calls && s'.calls[p].at.Running? ensures RunOk(s', p) { assert RunOk(s, p); }
    forall t | t in s'.work.table.tasks ensures TaskOk(s', t) { assert TaskOk(s, t); }
    hide WorkOk, RunOk, TaskOk;
  }

  lemma FrameKeepsReports(s: State, s': State)
    requires ReportsOk(s) && Framed(s, s')
    ensures ReportsOk(s')
  {
    FrameKeepsRest(s, s');
    hide RestStable;
    forall p | p in s'.calls ensures CallReportsOk(s', s'.calls[p]) {
      if p in s.calls {
        assert CallReportsOk(s, s.calls[p]);
        StableKeepsReports(s, s', s.calls[p], s'.calls[p]);
      }
    }
    hide CallReportsOk;
  }

  /** Other actors and new calls leave tasks and reports alone. */
  lemma OthersAreFramed(s: State, step: Step)
    requires Enabled(s, step) && !step.Move?
    ensures Framed(s, Next(s, step))
  {
  }

  lemma ClockIsFramed(s: State, now: int)
    requires Inv(s)
    ensures Inv(s.(now := now))
  {
    var s' := s.(now := now);
    assert LocksOk(s') && KeysOk(s');
    FrameKeepsTasks(s, s');
    FrameKeepsReports(s, s');
    hide LocksOk, KeysOk, TasksOk, ReportsOk;
  }

  lemma {:induction false} InvKept(s: State, step: Step)
    requires Inv(s)
    ensures Inv(Next(s, step))
  {
    LocksKept(s, step);
    KeysKept(s, step);
    hide LocksOk, KeysOk, TasksOk, ReportsOk, MoveStep;
    if Enabled(s, step) {
      if step.Move? {
        ClockIsFramed(s, step.later);
        MoveKeepsInv(s.(now := step.later), step.pid, step.now, step.later, step.id, step.reply);
      } else {
        OthersAreFramed(s, step);
        FrameKeepsTasks(s, Next(s, step));
        FrameKeepsReports(s, Next(s, step));
      }
    }
  }

  lemma {:induction false} InvAlways(registered: set<string>, now: int, steps: seq<Step>)
    ensures Inv(RunFrom(Initial(registered, now), steps))
  {
    if steps != [] {
      InvAlways(registered, now, steps[..|steps| - 1]);
      InvKept(RunFrom(Initial(registered, now), steps[..|steps| - 1]), steps[|steps| - 1]);
    }
  }

  // ----- Mutual exclusion -----

  /** Two calls never own the same content at the same time. */
  lemma {:induction false} MutualExclusion(registered: set<string>, now: int, steps: seq<Step>, p: nat, q: nat)
    requires var s := RunFrom(Initial(registered, now), steps);
             p in s.calls && q in s.calls && Owns(s.calls[p]) && Owns(s.calls[q]) &&
               s.calls[p].contentID == s.calls[q].contentID
    ensures p == q
  {
    var s := RunFrom(Initial(registered, now), steps);
    InvAlways(registered, now, steps);
    assert HoldsLock(s, p) && HoldsLock(s, q);
  }

  /** A content is Publishing exactly while some call owns it. */
  lemma {:induction false} PublishingExactlyWhileOwned(registered: set<string>, now: int, steps: seq<Step>, id: string)
    requires id in RunFrom(Initial(registered, now), steps).contents
    ensures var s := RunFrom(Initial(registered, now), steps);
            s.contents[id].content.status == Publishing <==>
            exists pid :: pid in s.calls && Owns(s.calls[pid]) && s.calls[pid].contentID == id
  {
    var s := RunFrom(Initial(registered, now), steps);
    InvAlways(registered, now, steps);
    if s.contents[id].content.status == Publishing {
      assert HasOwner(s, id);
    }
    if pid :| pid in s.calls && Owns(s.calls[pid]) && s.calls[pid].contentID == id {
      assert HoldsLock(s, pid);
    }
  }

  /** The owner's last two store operations always succeed, and leave the status its entries add up to. */
  lemma {:induction false} FinalWriteNeverFails(registered: set<string>, now: int, steps: seq<Step>, pid: nat)
    requires pid in RunFrom(Initial(registered, now), steps).calls
    ensures var s := RunFrom(Initial(registered, now), steps);
            var c := s.calls[pid];
            && (c.at.FinalCheck? ==> FinalCheckStep(s.contents, c) == c.(at := FinalWrite))
            && (c.at.FinalWrite? ==>
                  && |c.reports| == |c.platforms|
                  && UpdateContentError(s.contents, c.contentID, Aggregate(c.reports), 0) == None
                  && FinalWriteStep(s, pid, c).contents[c.contentID].content.status == Aggregate(c.reports))
  {
    var s := RunFrom(Initial(registered, now), steps);
    InvAlways(registered, now, steps);
    if Owns(s.calls[pid]) {
      assert HoldsLock(s, pid);
    }
    assert PositionOk(s.registered, s.calls[pid]);
    hide KeysOk, TasksOk, ReportsOk;
  }

  // ----- At most once -----

  /** The counts of a pair whose task is running or at rest. */
  lemma PairCounts(s: State, contentID: string, platform: string)
    requires TasksOk(s)
    ensures CountsOk(s.work, contentID, platform)
  {
    if HasTask(s.work, contentID, platform) {
      var t := s.work.table.byCombo[Combo(contentID, platform)];
      assert TaskOk(s, t);
      if RunBy(s, t) {
        assert RunOk(s, s.work.createdBy[t]);
        RunPairCounts(s.work, t, s.calls[s.work.createdBy[t]].contentID, Platform(s.calls[s.work.createdBy[t]]),
                      s.calls[s.work.createdBy[t]].at.run);
      } else {
        RestPairCounts(s.work, t);
      }
      hide WorkOk, Settled, RunLedger, TasksOk, TaskOk, RunOk;
    } else {
      assert NothingHappened(s.work, contentID, platform);
    }
  }

  predicate CountsOk(w: Work, contentID: string, platform: string) {
    var entered := w.events[Entered(contentID, platform)];
    var asked := w.events[Asked(contentID, platform)];
    var accepted := w.events[Accepted(contentID, platform)];
    entered <= 1 && accepted <= entered && accepted <= asked <= (DefaultRetryPolicy().maxRetries + 1) * entered
  }

  lemma RestPairCounts(w: Work, t: string)
    requires Settled(w, t)
    ensures CountsOk(w, w.table.tasks[t].contentID, w.table.tasks[t].platform)
  {
    hide Numbered, Closed;
  }

  lemma RunPairCounts(w: Work, t: string, contentID: string, platform: string, run: Run)
    requires RunLedger(w, contentID, platform, run) && run.taskID == t
    ensures t in w.table.tasks && w.table.tasks[t].contentID == contentID && w.table.tasks[t].platform == platform
    ensures CountsOk(w, contentID, platform)
  {
    hide RunAttempts;
  }

  /** In every run, for every content and platform: executeWithRetry is entered at most once, the adapter is
      asked to publish at most four times, and it accepts at most once. */
  lemma {:induction false} AtMostOnce(registered: set<string>, now: int, steps: seq<Step>, contentID: string,
                                      platform: string)
    ensures var events := RunFrom(Initial(registered, now), steps).work.events;
            && events[Entered(contentID, platform)] <= 1
            && events[Accepted(contentID, platform)] <= 1
            && events[Asked(contentID, platform)] <= 4
            && (events[Asked(contentID, platform)] > 0 ==> events[Entered(contentID, platform)] == 1)
  {
    InvAlways(registered, now, steps);
    PairCounts(RunFrom(Initial(registered, now), steps), contentID, platform);
    hide Inv, RunFrom, Initial;
  }

  // ----- Leases and lookups -----

  /** A refused claim and a create conflict always find the task: the failing lookups never happen. */
  lemma {:induction false} LookUpsNeverFail(registered: set<string>, now: int, steps: seq<Step>, pid: nat)
    requires pid in RunFrom(Initial(registered, now), steps).calls
    ensures var s := RunFrom(Initial(registered, now), steps);
            var c := s.calls[pid];
            && (c.at.LookUp? ==> LookUpTask(s.work.table, c.contentID, Platform(c)).Ok?)
            && (forall i :: 0 <= i < |c.reports| ==> c.reports[i].origin != Unexplained)
  {
    var s := RunFrom(Initial(registered, now), steps);
    InvAlways(registered, now, steps);
    var c := s.calls[pid];
    if c.at.LookUp? { FoundAtRest(s, pid); }
    assert CallReportsOk(s, c);
    forall i | 0 <= i < |c.reports| ensures c.reports[i].origin != Unexplained {
      assert ReportOk(s, c, i);
    }
    hide LocksOk, KeysOk, TasksOk, ReportsOk, LookUpTask;
  }

  /** A leased task key has its task, or the one call that owns the content is about to make it. */
  lemma {:induction false} LeaseMeansTask(registered: set<string>, now: int, steps: seq<Step>, combo: string)
    requires TaskKey(combo) in RunFrom(Initial(registered, now), steps).leases
    ensures var s := RunFrom(Initial(registered, now), steps);
            combo in s.work.table.byCombo ||
            exists pid :: pid in s.calls && s.calls[pid].at.MakeTask? && ComboOf(s.calls[pid]) == combo &&
                   HoldsLock(s, pid)
  {
    var s := RunFrom(Initial(registered, now), steps);
    InvAlways(registered, now, steps);
    if combo !in s.work.table.byCombo {
      assert Claiming(s, combo);
      assert HoldsLock(s, s.claimedBy[combo]);
    }
  }

  // ----- Stored and reported outcomes -----

  /** A task that no call is running rests in one of three ways, and its attempts, post and events say which.
      Exhausted retries rest as Processing, because the table refuses Processing to Dead. */
  lemma {:induction false} RestingTasks(registered: set<string>, now: int, steps: seq<Step>, t: string)
    requires var s := RunFrom(Initial(registered, now), steps);
             t in s.work.table.tasks && !RunBy(s, t)
    ensures var w := RunFrom(Initial(registered, now), steps).work;
            var task := w.table.tasks[t];
            && Settled(w, t)
            && (task.status == Succeeded <==> t in w.posts)
            && (task.status == Succeeded <==> w.events[Accepted(task.contentID, task.platform)] == 1)
            && (task.status == Processing ==>
                w.events[Asked(task.contentID, task.platform)] == task.policy.maxRetries + 1)
            && task.status in {Succeeded, PublishTaskStatus.Failed, Processing}
  {
    var s := RunFrom(Initial(registered, now), steps);
    InvAlways(registered, now, steps);
    assert TaskOk(s, t);
    hide WorkOk, Numbered, LocksOk, KeysOk, ReportsOk;
  }

  /** No task is ever stored as dead, in any run. */
  lemma {:induction false} NeverStoredDead(registered: set<string>, now: int, steps: seq<Step>, t: string)
    requires t in RunFrom(Initial(registered, now), steps).work.table.tasks
    ensures RunFrom(Initial(registered, now), steps).work.table.tasks[t].status !in {Dead, Cancelled}
  {
    var s := RunFrom(Initial(registered, now), steps);
    InvAlways(registered, now, steps);
    assert TaskOk(s, t);
    hide RunFrom, Inv, RunLedger, Settled;
    if RunBy(s, t) {
      RunsOk(s, t);
      var c := s.calls[s.work.createdBy[t]];
      RunNotDead(s.work, c.contentID, Platform(c), c.at.run);
    } else {
      RestNotDead(s.work, t);
    }
  }

  lemma RunsOk(s: State, t: string)
    requires Inv(s) && RunBy(s, t)
    ensures RunOk(s, s.work.createdBy[t])
  {
    hide RunOk;
  }

  lemma RunNotDead(w: Work, contentID: string, platform: string, run: Run)
    requires RunLedger(w, contentID, platform, run) && run.taskID in w.table.tasks
    ensures w.table.tasks[run.taskID].status !in {Dead, Cancelled}
  {
    hide RunAttempts, RunCounts;
  }

  lemma RestNotDead(w: Work, t: string)
    requires Settled(w, t) && t in w.table.tasks
    ensures w.table.tasks[t].status !in {Dead, Cancelled}
  {
    hide Numbered;
  }

  // ----- Every call returns -----

  function RunRank(at: RunAt): nat {
    match at
    case Count => 14
    case OpenAttempt => 13
    case MarkProcessing => 12
    case Validate => 11
    case Upload => 10
    case Publish => 9
    case MarkInvalid(_) => 8
    case CloseInvalid(_) => 7
    case MarkSucceeded(_) => 6
    case CloseSucceeded(_) => 5
    case RecordPost(_) => 4
    case CloseRejected(_, _) => 3
    case _ => 2
  }

  /** An upper bound on the moves a call has left. */
  function Rank(c: Call): int {
    var left := 64 * (|c.platforms| - |c.reports|);
    match c.at
    case Returned(_) => 0
    case FinalWrite => 1
    case FinalCheck => 2
    case LookUp => left + 4
    case Running(run) => left + 3 + 15 * (DefaultRetryPolicy().maxRetries - run.attempt) + RunRank(run.at)
    case MakeTask => left + 63
    case ClaimKey => left + 64
    case NextPlatform => left + 65
    case TakeLock => left + 66
    case Recheck(_) => left + 67
    case Fetch => left + 68
  }

  lemma RunRankFalls(w: Work, contentID: string, platform: string, run: Run, id: string, reply: Reply)
    requires RunTask(w, contentID, platform, run)
    ensures match RunStep(w, contentID, platform, run, id, reply)
            case Continue(_, run') =>
              run'.attempt <= 3 && 15 * (3 - run'.attempt) + RunRank(run'.at) < 15 * (3 - run.attempt) + RunRank(run.at)
            case Done(_, _) => true
  {
    hide UpdateTask, CompleteAttempt, CreateAttempt, IncrementAttempts, CreatePost, OpenAttemptFor;
  }

  /** What one move does to a call: its entries stay, and it gets nearer to its return. */
  predicate Nearer(c: Call, c': Call) {
    && c'.contentID == c.contentID && c'.platforms == c.platforms && c.reports <= c'.reports
    && 0 <= Rank(c') < Rank(c)
  }

  predicate OnlyNearer(s: State, s': State, pid: nat) {
    pid in s.calls && pid in s'.calls && s'.calls == s.calls[pid := s'.calls[pid]] &&
      Nearer(s.calls[pid], s'.calls[pid])
  }

  lemma LateNearer(s: State, pid: nat)
    requires pid in s.calls && PositionOk(s.registered, s.calls[pid])
    ensures var c := s.calls[pid];
            match c.at
            case Fetch => OnlyNearer(s, Put(s, pid, FetchStep(s.contents, c)), pid)
            case Recheck(seen) => OnlyNearer(s, Put(s, pid, RecheckStep(s.contents, c, seen)), pid)
            case TakeLock => OnlyNearer(s, TakeLockStep(s, pid, c), pid)
            case NextPlatform => OnlyNearer(s, Put(s, pid, NextPlatformStep(s.registered, c)), pid)
            case FinalCheck => OnlyNearer(s, Put(s, pid, FinalCheckStep(s.contents, c)), pid)
            case FinalWrite => OnlyNearer(s, FinalWriteStep(s, pid, c), pid)
            case _ => true
  {
    hide UpdateContent, Aggregate;
  }

  lemma PlatformNearer(s: State, pid: nat, now: int, later: int, id: string, o: Outcome)
    requires pid in s.calls && PositionOk(s.registered, s.calls[pid])
    requires s.calls[pid].at.Running? ==>
               var run := s.calls[pid].at.run;
               && run.attempt <= 3
               && (o.Continue? ==>
                   o.run.attempt <= 3 &&
                     15 * (3 - o.run.attempt) + RunRank(o.run.at) < 15 * (3 - run.attempt) + RunRank(run.at))
    ensures var c := s.calls[pid];
            match c.at
            case ClaimKey => OnlyNearer(s, ClaimStep(s, pid, c, now, later), pid)
            case MakeTask => OnlyNearer(s, MakeTaskStep(s, pid, c, id), pid)
            case LookUp => OnlyNearer(s, Put(s, pid, LookUpStep(s.work.table, c)), pid)
            case Running(_) => OnlyNearer(s, RunningStep(s, pid, c, o), pid)
            case _ => true
  {
    hide Claim, CreateStep, LookUpTask, ClaimGranted, TaskExists;
  }

  lemma MoveNearer(s: State, pid: nat, now: int, later: int, id: string, reply: Reply)
    requires Inv(s) && pid in s.calls && !s.calls[pid].at.Returned?
    ensures OnlyNearer(s, MoveStep(s, pid, now, later, id, reply), pid)
  {
    var c := s.calls[pid];
    assert PositionOk(s.registered, c);
    var o := Continue(s.work, Run("", 0, "", Count));
    if c.at.Running? {
      assert RunOk(s, pid);
      RunLedgerTask(s.work, c.contentID, Platform(c), c.at.run);
      RunRankFalls(s.work, c.contentID, Platform(c), c.at.run, id, reply);
      o := RunStep(s.work, c.contentID, Platform(c), c.at.run, id, reply);
    }
    hide Inv, RunOk, RunStep, RunTask, RunningStep, ClaimStep, MakeTaskStep, TakeLockStep, FinalWriteStep,
         LookUpStep, FetchStep, RecheckStep, NextPlatformStep, FinalCheckStep, OnlyNearer;
    LateNearer(s, pid);
    PlatformNearer(s, pid, now, later, id, o);
  }

  lemma StepKeepsCalls(s: State, step: Step, pid: nat)
    requires Inv(s) && pid in s.calls
    ensures pid in Next(s, step).calls
    ensures Next(s, step).calls[pid] == s.calls[pid] || Nearer(s.calls[pid], Next(s, step).calls[pid])
    ensures OwnMove(s, step, pid) ==> Nearer(s.calls[pid], Next(s, step).calls[pid])
  {
    if step.Move? && Enabled(s, step) {
      ClockIsFramed(s, step.later);
      if !s.calls[step.pid].at.Returned? {
        MoveNearer(s.(now := step.later), step.pid, step.now, step.later, step.id, step.reply);
        hide MoveStep, Nearer, Inv;
      }
    }
  }

  /** The step is a move of this call, before it has returned. */
  predicate OwnMove(s: State, step: Step, pid: nat) {
    Enabled(s, step) && step.Move? && step.pid == pid && !s.calls[pid].at.Returned?
  }

  /** How many moves the call makes in a run that continues from s. */
  function OwnMoves(s: State, steps: seq<Step>, pid: nat): nat {
    if steps == [] then 0
    else
      var before := steps[..|steps| - 1];
      OwnMoves(s, before, pid) + (if OwnMove(RunFrom(s, before), steps[|steps| - 1], pid) then 1 else 0)
  }

  lemma {:induction false} RunsCompose(s: State, steps: seq<Step>, more: seq<Step>)
    ensures RunFrom(s, steps + more) == RunFrom(RunFrom(s, steps), more)
  {
    if more == [] {
      assert steps + more == steps;
    } else {
      var k := |more| - 1;
      assert (steps + more)[..|steps + more| - 1] == steps + more[..k];
      RunsCompose(s, steps, more[..k]);
    }
  }

  lemma InvOnwards(s: State, steps: seq<Step>)
    requires Inv(s)
    ensures Inv(RunFrom(s, steps))
  {
    if steps != [] {
      InvOnwards(s, steps[..|steps| - 1]);
      InvKept(RunFrom(s, steps[..|steps| - 1]), steps[|steps| - 1]);
      hide Inv, Next;
    }
  }

  lemma {:induction false} RunKeepsCalls(s: State, steps: seq<Step>, pid: nat)
    requires Inv(s) && pid in s.calls
    ensures pid in RunFrom(s, steps).calls
    ensures var c, c' := s.calls[pid], RunFrom(s, steps).calls[pid];
            && c'.contentID == c.contentID && c'.platforms == c.platforms && c.reports <= c'.reports
            && OwnMoves(s, steps, pid) + Rank(c') <= Rank(c)
  {
    if steps != [] {
      var before := steps[..|steps| - 1];
      RunKeepsCalls(s, before, pid);
      InvOnwards(s, before);
      hide Inv, Next;
      StepKeepsCalls(RunFrom(s, before), steps[|steps| - 1], pid);
      hide Rank, OwnMove;
    }
  }

  /** A name that is in no finite set of names: a longer one. */
  lemma {:induction false} SomeFreshID(used: set<string>) returns (id: string)
    ensures forall u :: u in used ==> |u| < |id|
    decreases |used|
  {
    if used == {} {
      id := "x";
    } else {
      var u :| u in used;
      var rest := SomeFreshID(used - {u});
      id := if |u| < |rest| then rest else u + "x";
    }
  }

  /** A call that has not returned can always make its next move: it waits for nobody. */
  lemma {:induction false} NeverStuck(s: State, pid: nat)
    requires pid in s.calls && !s.calls[pid].at.Returned?
    ensures exists step :: OwnMove(s, step, pid)
  {
    var id := SomeFreshID(s.work.table.tasks.Keys + s.work.attempts.Keys);
    assert id !in s.work.table.tasks && id !in s.work.attempts;
    assert OwnMove(s, Move(pid, s.now, s.now, id, Rejected("", false)), pid);
  }

  /** Whatever the others do, a call returns: until then it can always move, it makes at most 64 moves per platform
      and 68 more, and when it has made that many it has returned. */
  lemma {:induction false} EveryCallReturns(registered: set<string>, now: int, steps: seq<Step>, more: seq<Step>,
                                            pid: nat, contentID: string, platforms: seq<string>)
    requires pid !in RunFrom(Initial(registered, now), steps).calls
    ensures var begun := Next(RunFrom(Initial(registered, now), steps), Begin(pid, contentID, platforms));
            var s := RunFrom(begun, more);
            var bound := 64 * |platforms| + 68;
            && OwnMoves(begun, more, pid) <= bound && pid in s.calls
            && (OwnMoves(begun, more, pid) == bound ==> s.calls[pid].at.Returned?)
            && (s.calls[pid].at.Returned? || exists step :: OwnMove(s, step, pid))
  {
    var s := RunFrom(Initial(registered, now), steps);
    InvAlways(registered, now, steps);
    InvKept(s, Begin(pid, contentID, platforms));
    var begun := Next(s, Begin(pid, contentID, platforms));
    assert begun.calls[pid] == Call(contentID, platforms, [], Fetch);
    hide Inv, Next, OwnMove, OwnMoves, RunFrom;
    RunKeepsCalls(begun, more, pid);
    InvOnwards(begun, more);
    RankNotNegative(RunFrom(begun, more), pid);
    if !RunFrom(begun, more).calls[pid].at.Returned? { NeverStuck(RunFrom(begun, more), pid); }
  }

  lemma RankNotNegative(s: State, pid: nat)
    requires Inv(s) && pid in s.calls
    ensures Rank(s.calls[pid]) >= 0 && (Rank(s.calls[pid]) == 0 <==> s.calls[pid].at.Returned?)
  {
    var c := s.calls[pid];
    assert PositionOk(s.registered, c);
    if c.at.Running? {
      assert RunOk(s, pid);
      RunLedgerTask(s.work, c.contentID, Platform(c), c.at.run);
    }
    hide Inv, RunLedger;
  }

  // ----- How a call gets in -----

  /** Without a move of its own a call stays where it is. */
  lemma {:induction false} Unmoved(s: State, steps: seq<Step>, pid: nat)
    requires pid in s.calls && OwnMoves(s, steps, pid) == 0
    ensures pid in RunFrom(s, steps).calls && RunFrom(s, steps).calls[pid] == s.calls[pid]
  {
    if steps != [] {
      var before := steps[..|steps| - 1];
      Unmoved(s, before, pid);
      hide RunFrom;
      OthersLeave(RunFrom(s, before), steps[|steps| - 1], pid);
    }
  }

  lemma OthersLeave(s: State, step: Step, pid: nat)
    requires pid in s.calls && !OwnMove(s, step, pid)
    ensures pid in Next(s, step).calls && Next(s, step).calls[pid] == s.calls[pid]
  {
    if step.Move? && Enabled(s, step) && step.pid != pid {
      OneMoves(s.(now := step.later), step.pid, step.now, step.later, step.id, step.reply, pid);
      hide MoveStep;
    }
  }

  lemma OneMoves(s: State, mover: nat, now: int, later: int, id: string, reply: Reply, pid: nat)
    requires mover in s.calls && pid in s.calls && pid != mover
    ensures var s' := MoveStep(s, mover, now, later, id, reply); pid in s'.calls && s'.calls[pid] == s.calls[pid]
  {
    hide RunStep, ClaimStep, MakeTaskStep, TakeLockStep, FinalWriteStep, RunningStep, FetchStep, RecheckStep,
         NextPlatformStep, LookUpStep, FinalCheckStep;
    StepsOfOne(s, mover, s.calls[mover], now, later, id, pid);
    forall o ensures pid in RunningStep(s, mover, s.calls[mover], o).calls &&
                     RunningStep(s, mover, s.calls[mover], o).calls[pid] == s.calls[pid]
    {
      RunsOfOne(s, mover, s.calls[mover], o, pid);
    }
  }

  lemma StepsOfOne(s: State, mover: nat, c: Call, now: int, later: int, id: string, pid: nat)
    requires pid in s.calls && pid != mover
    ensures forall s' :: s' in [ClaimStep(s, mover, c, now, later), MakeTaskStep(s, mover, c, id),
                                TakeLockStep(s, mover, c), FinalWriteStep(s, mover, c)] ==>
              pid in s'.calls && s'.calls[pid] == s.calls[pid]
  {
    hide ClaimGranted, Claim, CreateStep, LockGranted, UpdateContent, Aggregate;
  }

  lemma RunsOfOne(s: State, mover: nat, c: Call, o: Outcome, pid: nat)
    requires pid in s.calls && pid != mover
    ensures pid in RunningStep(s, mover, c, o).calls && RunningStep(s, mover, c, o).calls[pid] == s.calls[pid]
  {
  }

  /** The content is stored with this status. */
  predicate StoredAs(s: State, id: string, status: ContentStatus) {
    id in s.contents && s.contents[id].content.status == status
  }

  predicate StoredOpen(s: State, id: string) {
    StoredAs(s, id, Ready) || StoredAs(s, id, PartiallyPublished)
  }

  /** A call gets in exactly if it finds its content ready or partially published, finds it with the same status when
      it looks again, and finds it ready or partially published when it writes, whatever the others do in between:
      then, and only then, the content is stored as publishing and the call works on its platforms. Else it returns
      without success. */
  lemma {:induction false} GetsIn(s: State, pid: nat, first: Step, more: seq<Step>, second: Step, most: seq<Step>,
                                  third: Step)
    requires pid in s.calls && s.calls[pid].at.Fetch?
    requires MoveOf(s, first, pid) && OwnMoves(Next(s, first), more, pid) == 0
    requires MoveOf(RunFrom(Next(s, first), more), second, pid)
    requires OwnMoves(Next(RunFrom(Next(s, first), more), second), most, pid) == 0
    requires MoveOf(RunFrom(Next(RunFrom(Next(s, first), more), second), most), third, pid)
    ensures var again := RunFrom(Next(s, first), more);
            var writing := RunFrom(Next(again, second), most);
            var id := s.calls[pid].contentID;
            var entered := StoredOpen(s, id) && StoredAs(again, id, s.contents[id].content.status) &&
                           StoredOpen(writing, id);
            var end := Next(writing, third);
            pid in end.calls &&
            end.calls[pid] == s.calls[pid].(at := if entered then NextPlatform else Returned(false)) &&
            (entered ==> StoredAs(end, id, Publishing))
  {
    hide OwnMoves, RunFrom, Next;
    LooksFirst(s, first, pid);
    Unmoved(Next(s, first), more, pid);
    var again := RunFrom(Next(s, first), more);
    LooksAgain(again, second, pid);
    Unmoved(Next(again, second), most, pid);
    WritesThen(RunFrom(Next(again, second), most), third, pid);
    hide StoredOpen;
  }

  predicate MoveOf(s: State, step: Step, pid: nat) {
    Enabled(s, step) && step.Move? && step.pid == pid
  }

  lemma LooksFirst(s: State, step: Step, pid: nat)
    requires pid in s.calls && MoveOf(s, step, pid) && s.calls[pid].at.Fetch?
    ensures var c := s.calls[pid];
            Next(s, step).calls == s.calls[pid := c.(at :=
              if StoredOpen(s, c.contentID) then Recheck(s.contents[c.contentID].content.status)
              else Returned(false))]
  {
  }

  lemma LooksAgain(s: State, step: Step, pid: nat)
    requires pid in s.calls && MoveOf(s, step, pid) && (s.calls[pid].at.Recheck? || s.calls[pid].at.Returned?)
    ensures var c := s.calls[pid];
            Next(s, step).calls ==
              if c.at.Returned? then s.calls
              else s.calls[pid := c.(at := if StoredAs(s, c.contentID, c.at.seen) then TakeLock else Returned(false))]
  {
  }

  lemma WritesThen(s: State, step: Step, pid: nat)
    requires pid in s.calls && MoveOf(s, step, pid) && (s.calls[pid].at.TakeLock? || s.calls[pid].at.Returned?)
    ensures var c, s' := s.calls[pid], Next(s, step);
            if c.at.Returned? then s'.calls == s.calls
            else
              && s'.calls == s.calls[pid := c.(at := if StoredOpen(s, c.contentID) then NextPlatform
                                                    else Returned(false))]
              && (StoredOpen(s, c.contentID) ==> StoredAs(s', c.contentID, Publishing))
  {
  }

  /** A call that has worked off its platforms stores what its entries add up to exactly if it finds its content
      publishing and finds it so again when it writes; it returns with success in any case. */
  lemma {:induction false} GetsOut(s: State, pid: nat, first: Step, more: seq<Step>, second: Step)
    requires pid in s.calls && s.calls[pid].at.FinalCheck?
    requires MoveOf(s, first, pid) && OwnMoves(Next(s, first), more, pid) == 0
    requires MoveOf(RunFrom(Next(s, first), more), second, pid)
    ensures var writing := RunFrom(Next(s, first), more);
            var id, end := s.calls[pid].contentID, Next(writing, second);
            && end.calls == writing.calls[pid := s.calls[pid].(at := Returned(true))]
            && if StoredAs(s, id, Publishing) && StoredAs(writing, id, Publishing) then
                 var before := writing.contents[id];
                 end.contents == writing.contents[id := ContentRecord(
                   before.content.(status := Aggregate(s.calls[pid].reports)), before.version + 1)]
               else end.contents == writing.contents
  {
    hide OwnMoves, RunFrom, Next, Aggregate;
    LooksLast(s, first, pid);
    Unmoved(Next(s, first), more, pid);
    WritesLast(RunFrom(Next(s, first), more), second, pid);
  }

  lemma LooksLast(s: State, step: Step, pid: nat)
    requires pid in s.calls && MoveOf(s, step, pid) && s.calls[pid].at.FinalCheck?
    ensures var c := s.calls[pid];
            Next(s, step).calls == s.calls[pid := c.(at :=
              if StoredAs(s, c.contentID, Publishing) then FinalWrite else Returned(true))]
  {
  }

  lemma WritesLast(s: State, step: Step, pid: nat)
    requires pid in s.calls && MoveOf(s, step, pid) &&
             (s.calls[pid].at.FinalWrite? || s.calls[pid].at == Returned(true))
    ensures var c, s' := s.calls[pid], Next(s, step);
            && s'.calls == s.calls[pid := c.(at := Returned(true))]
            && if c.at.FinalWrite? && StoredAs(s, c.contentID, Publishing) then
                 var before := s.contents[c.contentID];
                 s'.contents == s.contents[c.contentID := ContentRecord(
                   before.content.(status := Aggregate(c.reports)), before.version + 1)]
               else s'.contents == s.contents
  {
  }

  // ----- Reports stay true -----

  /** Whatever a call has reported for a platform, with a task behind it, names the task of that content and that
      platform and agrees with what is stored of it, at that moment and at every later one; only exhausted retries
      are reported as Dead and stored as Processing. */
  lemma {:induction false} ReportsStayTrue(registered: set<string>, now: int, steps: seq<Step>, more: seq<Step>,
                                           pid: nat, i: nat)
    requires var s := RunFrom(Initial(registered, now), steps);
             pid in s.calls && i < |s.calls[pid].reports| && s.calls[pid].reports[i].origin != NotRegistered
    ensures var c := RunFrom(Initial(registered, now), steps).calls[pid];
            var r := c.reports[i];
            var later := RunFrom(Initial(registered, now), steps + more);
            && i < |c.platforms| && r.taskID in later.work.table.tasks
            && later.work.table.tasks[r.taskID].contentID == c.contentID
            && later.work.table.tasks[r.taskID].platform == c.platforms[i]
            && Agrees(later.work.table.tasks[r.taskID], r)
  {
    var s := RunFrom(Initial(registered, now), steps);
    var later := RunFrom(Initial(registered, now), steps + more);
    InvAlways(registered, now, steps + more);
    RunsCompose(Initial(registered, now), steps, more);
    InvAlways(registered, now, steps);
    RunKeepsCalls(s, more, pid);
    assert CallReportsOk(later, later.calls[pid]);
    assert ReportOk(later, later.calls[pid], i);
    hide LocksOk, KeysOk, TasksOk;
  }
}
