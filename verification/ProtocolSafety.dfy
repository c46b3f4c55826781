/** Every task is run by the call that made it, or rests: what every step of module Protocol keeps about who runs
    a task. */
module ProtocolSafety {
  import opened Keys
  import opened PublishTables
  import opened Protocol
  import opened ProtocolLocks
  import opened ProtocolLedger

  // ----- Tasks are run by one call, or rest -----

  predicate RunBy(s: State, t: string) {
    && t in s.work.createdBy && s.work.createdBy[t] in s.calls
    && s.calls[s.work.createdBy[t]].at.Running? && s.calls[s.work.createdBy[t]].at.run.taskID == t
  }

  ghost predicate RunOk(s: State, pid: nat)
    requires pid in s.calls && s.calls[pid].at.Running?
  {
    var c := s.calls[pid];
    && RunLedger(s.work, c.contentID, Platform(c), c.at.run)
    && c.at.run.taskID in s.work.createdBy && s.work.createdBy[c.at.run.taskID] == pid
  }

  ghost predicate TaskOk(s: State, t: string)
    requires t in s.work.table.tasks
  {
    ColonFree(s.work.table.tasks[t].contentID) && (RunBy(s, t) || Settled(s.work, t))
  }

  ghost predicate TasksOk(s: State) {
    && WorkOk(s.work)
    && (forall pid :: pid in s.calls && s.calls[pid].at.Running? ==> RunOk(s, pid))
    && (forall t :: t in s.work.table.tasks ==> TaskOk(s, t))
  }

  /** One call moved outside the retry loop and left the tasks alone. */
  predicate TaskQuiet(s: State, s': State, pid: nat) {
    && pid in s.calls && pid in s'.calls && s'.calls == s.calls[pid := s'.calls[pid]]
    && s'.work == s.work && !s.calls[pid].at.Running? && !s'.calls[pid].at.Running?
  }

  lemma TaskQuietKeepsTasks(s: State, s': State, pid: nat)
    requires TasksOk(s) && TaskQuiet(s, s', pid)
    ensures TasksOk(s')
  {
    forall p | p in s'.calls && s'.calls[p].at.Running? ensures RunOk(s', p) {
      assert RunOk(s, p);
    }
    forall t | t in s'.work.table.tasks ensures TaskOk(s', t) {
      assert TaskOk(s, t);
    }
    hide WorkOk, RunLedger, Settled;
  }

  /** One call worked on its task t and nothing else. */
  ghost predicate Worked(s: State, s': State, pid: nat, t: string) {
    && pid in s.calls && pid in s'.calls && s'.calls == s.calls[pid := s'.calls[pid]]
    && Touches(s.work, s'.work, t)
    && t in s.work.createdBy && s.work.createdBy[t] == pid
  }

  lemma WorkedKeepsRuns(s: State, s': State, pid: nat, t: string, p: nat)
    requires TasksOk(s) && Worked(s, s', pid, t) && p in s.calls && p != pid && s.calls[p].at.Running?
    ensures RunOk(s', p)
  {
    assert RunOk(s, p);
    var c := s.calls[p];
    TouchesOnly(s.work, s'.work, t, c.at.run.taskID);
    SameRunLedger(s.work, s'.work, c.contentID, Platform(c), c.at.run);
    assert s'.work.createdBy == s.work.createdBy;
    hide WorkOk, RunLedger, Touches;
  }

  lemma WorkedKeepsTasks(s: State, s': State, pid: nat, t: string, u: string)
    requires TasksOk(s) && Worked(s, s', pid, t) && u in s.work.table.tasks && u != t
    requires s.calls[pid].at.Running? && s.calls[pid].at.run.taskID == t
    ensures u in s'.work.table.tasks && TaskOk(s', u)
  {
    assert TaskOk(s, u);
    TouchesOnly(s.work, s'.work, t, u);
    if !RunBy(s, u) { SameSettled(s.work, s'.work, u); }
    assert s'.work.createdBy == s.work.createdBy;
    assert s'.work.table.tasks[u] == s.work.table.tasks[u];
    hide WorkOk, Settled, Touches, Same;
  }

  lemma TouchesIdentity(w: Work, w': Work, t: string)
    requires Touches(w, w', t)
    ensures t in w'.table.tasks && w'.table.tasks[t].contentID == w.table.tasks[t].contentID
    ensures w'.createdBy == w.createdBy && w'.table.tasks.Keys == w.table.tasks.Keys
  {
  }

  /** What one step of the retry loop does to the stores. */
  lemma StepWorks(w: Work, contentID: string, platform: string, run: Run, id: string, reply: Reply)
    requires WorkOk(w) && RunLedger(w, contentID, platform, run) && id !in w.attempts
    ensures var o := RunStep(w, contentID, platform, run, id, reply);
            && Touches(w, o.work, run.taskID) && WorkOk(o.work) && StepLedger(w, contentID, platform, run, o)
            && run.taskID in w.table.tasks && run.taskID in o.work.table.tasks
            && o.work.table.tasks[run.taskID].contentID == w.table.tasks[run.taskID].contentID
            && o.work.createdBy == w.createdBy
  {
    StepTouches(w, contentID, platform, run, id, reply);
    StepKeepsLedger(w, contentID, platform, run, id, reply);
    hide WorkOk, RunLedger, RunStep, StepLedger;
    var w' := RunStep(w, contentID, platform, run, id, reply).work;
    TouchesKeepsWork(w, w', run.taskID);
    TouchesIdentity(w, w', run.taskID);
    hide Touches;
  }

  /** A step of the retry loop that does what StepWorks says. */
  ghost predicate GoodStep(s: State, pid: nat, o: Outcome)
    requires pid in s.calls && s.calls[pid].at.Running?
  {
    var c := s.calls[pid];
    var t := c.at.run.taskID;
    && Touches(s.work, o.work, t) && WorkOk(o.work) && StepLedger(s.work, c.contentID, Platform(c), c.at.run, o)
    && t in s.work.table.tasks && t in o.work.table.tasks
    && o.work.table.tasks[t].contentID == s.work.table.tasks[t].contentID
    && o.work.createdBy == s.work.createdBy
  }

  lemma RunningGoesOn(s: State, pid: nat, o: Outcome)
    requires TasksOk(s) && pid in s.calls && s.calls[pid].at.Running? && GoodStep(s, pid, o)
    ensures var t := s.calls[pid].at.run.taskID;
            var s' := RunningStep(s, pid, s.calls[pid], o);
            && Worked(s, s', pid, t) && t in s'.work.table.tasks && TaskOk(s', t)
            && (s'.calls[pid].at.Running? ==> RunOk(s', pid))
  {
    hide WorkOk, RunLedger, Settled, Touches, Agrees, TasksOk, ColonFree;
    RunningFacts(s, pid);
  }

  lemma RunningFacts(s: State, pid: nat)
    requires TasksOk(s) && pid in s.calls && s.calls[pid].at.Running?
    ensures var t := s.calls[pid].at.run.taskID;
            RunOk(s, pid) && (t in s.work.table.tasks ==> ColonFree(s.work.table.tasks[t].contentID))
  {
    var t := s.calls[pid].at.run.taskID;
    assert RunOk(s, pid);
    if t in s.work.table.tasks { assert TaskOk(s, t); }
    hide RunLedger, Settled, WorkOk, ColonFree;
  }

  lemma RunningKeepsTasks(s: State, pid: nat, o: Outcome)
    requires TasksOk(s) && pid in s.calls && s.calls[pid].at.Running? && GoodStep(s, pid, o)
    ensures TasksOk(RunningStep(s, pid, s.calls[pid], o))
  {
    RunningGoesOn(s, pid, o);
    WorkedAll(s, RunningStep(s, pid, s.calls[pid], o), pid, s.calls[pid].at.run.taskID);
    hide WorkOk, RunOk, TaskOk, Worked, StepLedger, Touches;
  }

  lemma WorkedAll(s: State, s': State, pid: nat, t: string)
    requires TasksOk(s) && Worked(s, s', pid, t) && WorkOk(s'.work)
    requires s.calls[pid].at.Running? && s.calls[pid].at.run.taskID == t
    requires t in s'.work.table.tasks && TaskOk(s', t) && (s'.calls[pid].at.Running? ==> RunOk(s', pid))
    ensures TasksOk(s')
  {
    hide WorkOk, RunOk, TaskOk, Touches, Settled;
    TouchesIdentity(s.work, s'.work, t);
    forall p | p in s'.calls && s'.calls[p].at.Running? ensures RunOk(s', p) {
      if p != pid { WorkedKeepsRuns(s, s', pid, t, p); }
    }
    forall u | u in s'.work.table.tasks ensures TaskOk(s', u) {
      if u != t { WorkedKeepsTasks(s, s', pid, t, u); }
    }
  }

  // ----- Making a task -----

  /** A fresh task joins the others. */
  lemma CreateKeepsWork(w: Work, pid: nat, c: Call, id: string)
    requires WorkOk(w) && !TaskExists(w.table, c.contentID, Platform(c)) && id !in w.table.tasks
    ensures WorkOk(CreateStep(w, pid, c, id))
  {
    var w' := CreateStep(w, pid, c, id);
    forall k | k in w'.table.byCombo ensures IndexEntryOk(w'.table, k) {
      if k != ComboOf(c) { assert IndexEntryOk(w.table, k); }
    }
    forall u | u in w'.table.tasks ensures TaskReached(w'.table, u) {
      if u != id { assert TaskReached(w.table, u); }
    }
    forall a | a in w'.attempts ensures Traced(w', a) {
      assert Traced(w, a);
    }
    forall contentID, platform | !HasTask(w', contentID, platform) ensures NothingHappened(w', contentID, platform) {
      assert !HasTask(w, contentID, platform);
    }
  }

  lemma CreateLeavesOthers(w: Work, pid: nat, c: Call, id: string, u: string)
    requires WorkOk(w) && !TaskExists(w.table, c.contentID, Platform(c)) && id !in w.table.tasks && u in w.table.tasks
    ensures Same(w, CreateStep(w, pid, c, id), u)
  {
    assert TaskReached(w.table, u);
  }

  lemma CreateStartsLedger(w: Work, pid: nat, c: Call, id: string)
    requires WorkOk(w) && !TaskExists(w.table, c.contentID, Platform(c)) && id !in w.table.tasks
    ensures RunLedger(CreateStep(w, pid, c, id), c.contentID, Platform(c), Run(id, 0, "", Count))
  {
    assert !HasTask(w, c.contentID, Platform(c));
    assert NothingHappened(w, c.contentID, Platform(c));
  }

  lemma MadeKeepsRuns(s: State, s': State, pid: nat, c: Call, id: string, p: nat)
    requires TasksOk(s) && !TaskExists(s.work.table, c.contentID, Platform(c)) && id !in s.work.table.tasks
    requires s'.work == CreateStep(s.work, pid, c, id)
    requires p in s.calls && p in s'.calls && s'.calls[p] == s.calls[p] && s.calls[p].at.Running?
    ensures RunOk(s', p)
  {
    hide WorkOk, RunLedger, Same, TaskOk;
    assert RunOk(s, p);
    var d := s.calls[p];
    assert d.at.run.taskID in s.work.table.tasks by {
      assert RunTask(s.work, d.contentID, Platform(d), d.at.run) by {
        RunLedgerTask(s.work, d.contentID, Platform(d), d.at.run);
      }
    }
    CreateLeavesOthers(s.work, pid, c, id, d.at.run.taskID);
    SameRunLedger(s.work, s'.work, d.contentID, Platform(d), d.at.run);
  }

  lemma RunLedgerTask(w: Work, contentID: string, platform: string, run: Run)
    requires RunLedger(w, contentID, platform, run)
    ensures RunTask(w, contentID, platform, run)
  {
  }

  lemma MadeKeepsTasks(s: State, s': State, pid: nat, c: Call, id: string, u: string)
    requires TasksOk(s) && !TaskExists(s.work.table, c.contentID, Platform(c)) && id !in s.work.table.tasks
    requires s'.work == CreateStep(s.work, pid, c, id)
    requires pid in s.calls && !s.calls[pid].at.Running? &&
             s'.calls == s.calls[pid := c.(at := Running(Run(id, 0, "", Count)))]
    requires u in s.work.table.tasks
    ensures TaskOk(s', u)
  {
    hide WorkOk, Settled, Same, RunOk;
    assert TaskOk(s, u);
    CreateLeavesOthers(s.work, pid, c, id, u);
    if !RunBy(s, u) { SameSettled(s.work, s'.work, u); }
  }

  lemma MadeStarts(s: State, pid: nat, id: string)
    requires LocksOk(s) && TasksOk(s) && pid in s.calls && s.calls[pid].at.MakeTask? && id !in s.work.table.tasks
    requires !TaskExists(s.work.table, s.calls[pid].contentID, Platform(s.calls[pid]))
    ensures var s' := MakeTaskStep(s, pid, s.calls[pid], id);
            WorkOk(s'.work) && RunOk(s', pid) && TaskOk(s', id)
  {
    assert HoldsLock(s, pid);
    CreateKeepsWork(s.work, pid, s.calls[pid], id);
    CreateStartsLedger(s.work, pid, s.calls[pid], id);
    hide WorkOk, RunLedger, Settled, LocksOk, TasksOk;
  }

  lemma MadeAll(s: State, s': State, pid: nat, c: Call, id: string)
    requires TasksOk(s) && !TaskExists(s.work.table, c.contentID, Platform(c)) && id !in s.work.table.tasks
    requires pid in s.calls && s.calls[pid] == c && c.at.MakeTask? && s' == MakeTaskStep(s, pid, c, id)
    requires WorkOk(s'.work) && RunOk(s', pid) && id in s'.work.table.tasks && TaskOk(s', id)
    ensures TasksOk(s')
  {
    hide WorkOk, RunOk, TaskOk;
    forall p | p in s'.calls && s'.calls[p].at.Running? ensures RunOk(s', p) {
      if p != pid { MadeKeepsRuns(s, s', pid, c, id, p); }
    }
    forall u | u in s'.work.table.tasks ensures TaskOk(s', u) {
      if u != id { MadeKeepsTasks(s, s', pid, c, id, u); }
    }
  }

  lemma MakeTaskKeepsTasks(s: State, pid: nat, id: string)
    requires LocksOk(s) && TasksOk(s) && pid in s.calls && s.calls[pid].at.MakeTask? && id !in s.work.table.tasks
    ensures TasksOk(MakeTaskStep(s, pid, s.calls[pid], id))
  {
    var c := s.calls[pid];
    var s' := MakeTaskStep(s, pid, c, id);
    if TaskExists(s.work.table, c.contentID, Platform(c)) {
      TaskQuietKeepsTasks(s, s', pid);
    } else {
      MadeStarts(s, pid, id);
      MadeAll(s, s', pid, c, id);
    }
    hide LocksOk, TasksOk, MakeTaskStep;
  }
}
