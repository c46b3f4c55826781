/** What a call has reported stays true of the stores: what every step of module Protocol keeps about reports. */
module ProtocolReports {
  import opened Contracts
  import opened Keys
  import opened PublishTables
  import opened Protocol
  import opened ProtocolLocks
  import opened ProtocolKeys
  import opened ProtocolLedger
  import opened ProtocolSafety

  /** The i-th entry of a call, against the stores as they are now. */
  predicate ReportOk(s: State, c: Call, i: nat)
    requires i < |c.reports| && i < |c.platforms|
  {
    var r := c.reports[i];
    match r.origin
    case Unexplained => false
    case NotRegistered => c.platforms[i] !in s.registered && r.status == PublishTaskStatus.Failed && r.taskID == ""
    case _ =>
      r.taskID in s.work.table.tasks && !RunBy(s, r.taskID) &&
      var task := s.work.table.tasks[r.taskID];
      && task.contentID == c.contentID && task.platform == c.platforms[i]
      && Agrees(task, r)
      && (r.origin == Existing ==> r.status == task.status)
  }

  ghost predicate CallReportsOk(s: State, c: Call) {
    |c.reports| <= |c.platforms| && forall i: nat :: i < |c.reports| ==> ReportOk(s, c, i)
  }

  ghost predicate ReportsOk(s: State) {
    forall pid :: pid in s.calls ==> CallReportsOk(s, s.calls[pid])
  }

  /** A task at rest is neither changed nor run again. */
  ghost predicate RestStable(s: State, s': State) {
    && s'.registered == s.registered
    && forall t :: t in s.work.table.tasks && !RunBy(s, t) ==>
         t in s'.work.table.tasks && s'.work.table.tasks[t] == s.work.table.tasks[t] && !RunBy(s', t)
  }

  lemma StableKeepsReports(s: State, s': State, c: Call, c': Call)
    requires RestStable(s, s') && CallReportsOk(s, c)
    requires c'.contentID == c.contentID && c'.platforms == c.platforms && c'.reports == c.reports
    ensures CallReportsOk(s', c')
  {
    forall i: nat | i < |c'.reports| ensures ReportOk(s', c', i) {
      assert ReportOk(s, c, i);
    }
  }

  /** One call moved, and its reports stayed or grew by a true one. */
  ghost predicate Reports(s: State, s': State, pid: nat) {
    && pid in s.calls && pid in s'.calls && s'.calls == s.calls[pid := s'.calls[pid]]
    && RestStable(s, s')
    && CallReportsOk(s', s'.calls[pid])
  }

  lemma MoverKeepsReports(s: State, s': State, pid: nat)
    requires ReportsOk(s) && Reports(s, s', pid)
    ensures ReportsOk(s')
  {
    forall p | p in s'.calls ensures CallReportsOk(s', s'.calls[p]) {
      if p != pid {
        assert CallReportsOk(s, s.calls[p]);
        StableKeepsReports(s, s', s.calls[p], s'.calls[p]);
      }
    }
  }

  lemma AppendReport(s: State, c: Call, c': Call, r: Report)
    requires CallReportsOk(s, c) && |c.reports| < |c.platforms| && c' == Reported(c, r) && ReportOk(s, c', |c.reports|)
    ensures CallReportsOk(s, c')
  {
    forall i: nat | i < |c'.reports| ensures ReportOk(s, c', i) {
      if i < |c.reports| { assert ReportOk(s, c, i); }
    }
  }

  lemma QuietIsStable(s: State, s': State, pid: nat)
    requires TaskQuiet(s, s', pid) && s'.registered == s.registered
    ensures RestStable(s, s')
  {
  }

  lemma NextPlatformReports(s: State, pid: nat)
    requires LocksOk(s) && ReportsOk(s) && pid in s.calls && s.calls[pid].at.NextPlatform?
    ensures ReportsOk(Put(s, pid, NextPlatformStep(s.registered, s.calls[pid])))
  {
    var c := s.calls[pid];
    var c' := NextPlatformStep(s.registered, c);
    var s' := Put(s, pid, c');
    QuietIsStable(s, s', pid);
    assert CallReportsOk(s, c);
    StableKeepsReports(s, s', c, c);
    if c'.at.NextPlatform? {
      AppendReport(s', c, c', Report("", PublishTaskStatus.Failed, PlatformNotFound(Platform(c)), NotRegistered));
    } else {
      StableKeepsReports(s, s', c, c');
    }
    hide LocksOk, CallReportsOk, ReportOk;
    MoverKeepsReports(s, s', pid);
  }

  /** Whoever runs a task holds the lock of its content. */
  lemma RunnerOwns(s: State, t: string)
    requires LocksOk(s) && TasksOk(s) && t in s.work.table.tasks
    ensures var id := s.work.table.tasks[t].contentID;
            RunBy(s, t) ==> id in s.lockedBy && s.lockedBy[id] == s.work.createdBy[t]
  {
    if RunBy(s, t) {
      assert RunOk(s, s.work.createdBy[t]) && HoldsLock(s, s.work.createdBy[t]);
    }
  }

  /** The task that a duplicate finds is at rest: only the owner of the content could be running it. */
  lemma FoundAtRest(s: State, pid: nat)
    requires LocksOk(s) && KeysOk(s) && TasksOk(s) && pid in s.calls && s.calls[pid].at.LookUp?
    ensures var c := s.calls[pid];
            LookUpTask(s.work.table, c.contentID, Platform(c)).Ok? &&
            var task := LookUpTask(s.work.table, c.contentID, Platform(c)).value;
            task.id in s.work.table.tasks && s.work.table.tasks[task.id] == task &&
            task.contentID == c.contentID && task.platform == Platform(c) && !RunBy(s, task.id)
  {
    var c := s.calls[pid];
    assert LookUpOk(s, c) && HoldsLock(s, pid);
    assert IndexEntryOk(s.work.table, ComboOf(c));
    var t := s.work.table.byCombo[ComboOf(c)];
    assert TaskReached(s.work.table, t) && TaskOk(s, t);
    JoinInjective(s.work.table.tasks[t].contentID, s.work.table.tasks[t].platform, c.contentID, Platform(c));
    RunnerOwns(s, t);
    hide TasksOk, KeysOk, LocksOk, TaskOk;
  }

  lemma LookUpPosition(s: State, pid: nat)
    requires LocksOk(s) && ReportsOk(s) && pid in s.calls && s.calls[pid].at.LookUp?
    ensures CallReportsOk(s, s.calls[pid]) && PositionOk(s.registered, s.calls[pid])
  {
    hide CallReportsOk, PositionOk, HoldsLock;
  }

  lemma ReportsMeans(s: State, s': State, pid: nat)
    requires pid in s.calls && pid in s'.calls && s'.calls == s.calls[pid := s'.calls[pid]]
    requires RestStable(s, s') && CallReportsOk(s', s'.calls[pid])
    ensures Reports(s, s', pid)
  {
  }

  lemma LookUpReports(s: State, pid: nat)
    requires LocksOk(s) && KeysOk(s) && TasksOk(s) && ReportsOk(s) && pid in s.calls && s.calls[pid].at.LookUp?
    ensures ReportsOk(Put(s, pid, LookUpStep(s.work.table, s.calls[pid])))
  {
    hide LocksOk, KeysOk, TasksOk, LookUpTask, CallReportsOk, RestStable, Reports;
    FoundAtRest(s, pid);
    var c := s.calls[pid];
    LookUpPosition(s, pid);
    var task := LookUpTask(s.work.table, c.contentID, Platform(c)).value;
    var r := Report(task.id, task.status, task.error, Existing);
    var c' := Reported(c, r);
    var s' := Put(s, pid, c');
    QuietIsStable(s, s', pid);
    StableKeepsReports(s, s', c, c);
    assert ReportOk(s', c', |c.reports|);
    AppendReport(s', c, c', r);
    ReportsMeans(s, s', pid);
    MoverKeepsReports(s, s', pid);
  }

  lemma WorkedIsStable(s: State, s': State, pid: nat, t: string)
    requires Worked(s, s', pid, t) && RunBy(s, t) && s'.registered == s.registered
    requires s'.calls[pid].at.Running? ==> s'.calls[pid].at.run.taskID == t
    ensures RestStable(s, s')
  {
  }

  lemma RunningIsStable(s: State, pid: nat, o: Outcome)
    requires TasksOk(s) && pid in s.calls && s.calls[pid].at.Running? && GoodStep(s, pid, o)
    ensures RestStable(s, RunningStep(s, pid, s.calls[pid], o))
  {
    RunningGoesOn(s, pid, o);
    assert RunOk(s, pid);
    hide WorkOk, RunLedger, TaskOk, Worked;
    WorkedIsStable(s, RunningStep(s, pid, s.calls[pid], o), pid, s.calls[pid].at.run.taskID);
  }

  lemma RunningPosition(s: State, pid: nat)
    requires LocksOk(s) && TasksOk(s) && ReportsOk(s) && pid in s.calls && s.calls[pid].at.Running?
    ensures RunOk(s, pid) && PositionOk(s.registered, s.calls[pid]) && CallReportsOk(s, s.calls[pid])
  {
    hide RunOk, PositionOk, CallReportsOk, HoldsLock;
  }

  /** The report with which a call leaves the retry loop is true. */
  lemma DoneReports(s: State, pid: nat, o: Outcome)
    requires pid in s.calls && s.calls[pid].at.Running?
    requires RunOk(s, pid) && PositionOk(s.registered, s.calls[pid]) && GoodStep(s, pid, o) && o.Done?
    ensures var c := s.calls[pid];
            var s' := RunningStep(s, pid, c, o);
            |c.reports| < |c.platforms| && s'.calls[pid] == Reported(c, o.report) &&
              ReportOk(s', s'.calls[pid], |c.reports|)
  {
    hide WorkOk, Settled, Touches, RunAttempts, RunCounts;
    SamePairs(s.work, o.work, s.calls[pid].at.run.taskID);
  }

  lemma SamePairs(w: Work, w': Work, t: string)
    ensures Touches(w, w', t) ==> t in w'.table.tasks && SamePair(w.table.tasks[t], w'.table.tasks[t])
  {
  }

  lemma RunningReports(s: State, pid: nat, o: Outcome)
    requires LocksOk(s) && TasksOk(s) && ReportsOk(s) && pid in s.calls && s.calls[pid].at.Running? &&
             GoodStep(s, pid, o)
    ensures ReportsOk(RunningStep(s, pid, s.calls[pid], o))
  {
    hide LocksOk, TasksOk, ReportsOk, RunOk, PositionOk, CallReportsOk, GoodStep, RestStable, ReportOk, Reports;
    var c := s.calls[pid];
    var s' := RunningStep(s, pid, c, o);
    RunningIsStable(s, pid, o);
    RunningPosition(s, pid);
    StableKeepsReports(s, s', c, c);
    if o.Done? {
      DoneReports(s, pid, o);
      AppendReport(s', c, s'.calls[pid], o.report);
    } else {
      StableKeepsReports(s, s', c, s'.calls[pid]);
    }
    ReportsMeans(s, s', pid);
    MoverKeepsReports(s, s', pid);
  }
}
