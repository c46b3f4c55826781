/** The content status as a lock: what every step of module Protocol keeps about it. */
module ProtocolLocks {
  import opened Contracts
  import opened Keys
  import opened PublishTables
  import opened Protocol

  /** Between its accepted write to Publishing and its final write, a call owns its content. */
  predicate Owns(c: Call) {
    !(c.at.Fetch? || c.at.Recheck? || c.at.TakeLock? || c.at.Returned?)
  }

  /** The call works on one platform of its list. */
  predicate OnPlatform(c: Call) {
    c.at.ClaimKey? || c.at.MakeTask? || c.at.LookUp? || c.at.Running?
  }

  predicate PositionOk(registered: set<string>, c: Call) {
    && |c.reports| <= |c.platforms|
    && (OnPlatform(c) ==> |c.reports| < |c.platforms| && Platform(c) in registered)
    && (c.at.FinalCheck? || c.at.FinalWrite? || c.at == Returned(true) ==> |c.reports| == |c.platforms|)
  }

  predicate HoldsLock(s: State, pid: nat)
    requires pid in s.calls
  {
    var id := s.calls[pid].contentID;
    && id in s.contents && s.contents[id].content.status == Publishing
    && id in s.lockedBy && s.lockedBy[id] == pid
  }

  predicate HasOwner(s: State, id: string) {
    && id in s.lockedBy && s.lockedBy[id] in s.calls
    && Owns(s.calls[s.lockedBy[id]]) && s.calls[s.lockedBy[id]].contentID == id
  }

  ghost predicate LocksOk(s: State) {
    && (forall id :: id in s.contents ==> ColonFree(id))
    && (forall pid :: pid in s.calls && Owns(s.calls[pid]) ==> HoldsLock(s, pid))
    && (forall id :: id in s.contents && s.contents[id].content.status == Publishing ==> HasOwner(s, id))
    && (forall pid :: pid in s.calls ==> PositionOk(s.registered, s.calls[pid]))
  }

  /** Only one call moved, and neither the contents nor who owns them changed. */
  predicate Quiet(s: State, s': State, pid: nat) {
    && pid in s.calls && pid in s'.calls && s'.calls == s.calls[pid := s'.calls[pid]]
    && s'.contents == s.contents && s'.lockedBy == s.lockedBy && s'.registered == s.registered
    && s'.calls[pid].contentID == s.calls[pid].contentID && Owns(s'.calls[pid]) == Owns(s.calls[pid])
    && PositionOk(s'.registered, s'.calls[pid])
  }

  lemma QuietKeepsLocks(s: State, s': State, pid: nat)
    requires LocksOk(s) && Quiet(s, s', pid)
    ensures LocksOk(s')
  {
    forall p | p in s'.calls && Owns(s'.calls[p]) ensures HoldsLock(s', p) {
      assert p in s.calls && Owns(s.calls[p]);
    }
    forall id | id in s'.contents && s'.contents[id].content.status == Publishing ensures HasOwner(s', id) {
      assert HasOwner(s, id);
    }
  }

  lemma TakeLockKeepsLocks(s: State, pid: nat)
    requires LocksOk(s) && pid in s.calls && s.calls[pid].at.TakeLock?
    ensures LocksOk(TakeLockStep(s, pid, s.calls[pid]))
  {
    var s' := TakeLockStep(s, pid, s.calls[pid]);
    var mine := s.calls[pid].contentID;
    if LockGranted(s.contents, s.calls[pid]) {
      assert s.contents[mine].content.status != Publishing;
      forall p | p in s'.calls && Owns(s'.calls[p]) ensures HoldsLock(s', p) {
        if p != pid { assert HoldsLock(s, p); }
      }
      forall i | i in s'.contents && s'.contents[i].content.status == Publishing ensures HasOwner(s', i) {
        if i != mine { assert HasOwner(s, i); }
      }
    } else {
      QuietKeepsLocks(s, s', pid);
    }
  }

  lemma FinalWriteKeepsLocks(s: State, pid: nat)
    requires LocksOk(s) && pid in s.calls && s.calls[pid].at.FinalWrite?
    ensures LocksOk(FinalWriteStep(s, pid, s.calls[pid]))
  {
    var c := s.calls[pid];
    var s' := FinalWriteStep(s, pid, c);
    assert HoldsLock(s, pid);
    forall p | p in s'.calls && Owns(s'.calls[p]) ensures HoldsLock(s', p) {
      assert p != pid && HoldsLock(s, p);
    }
    forall i | i in s'.contents && s'.contents[i].content.status == Publishing ensures HasOwner(s', i) {
      assert i != c.contentID && HasOwner(s, i);
    }
  }

  lemma WorkingIsQuiet(s: State, pid: nat, now: int, later: int, id: string, o: Outcome)
    requires pid in s.calls && OnPlatform(s.calls[pid]) && PositionOk(s.registered, s.calls[pid])
    ensures var c := s.calls[pid];
            match c.at
            case ClaimKey => Quiet(s, ClaimStep(s, pid, c, now, later), pid)
            case MakeTask => Quiet(s, MakeTaskStep(s, pid, c, id), pid)
            case Running(_) => Quiet(s, RunningStep(s, pid, c, o), pid)
            case _ => Quiet(s, Put(s, pid, LookUpStep(s.work.table, c)), pid)
  {
    hide Claim, CreateStep, ClaimGranted, TaskExists, LookUpTask;
  }

  lemma PassingIsQuiet(s: State, pid: nat)
    requires LocksOk(s) && pid in s.calls && PositionOk(s.registered, s.calls[pid])
    ensures var c := s.calls[pid];
            match c.at
            case Fetch => Quiet(s, Put(s, pid, FetchStep(s.contents, c)), pid)
            case Recheck(seen) => Quiet(s, Put(s, pid, RecheckStep(s.contents, c, seen)), pid)
            case NextPlatform => Quiet(s, Put(s, pid, NextPlatformStep(s.registered, c)), pid)
            case FinalCheck => Quiet(s, Put(s, pid, FinalCheckStep(s.contents, c)), pid)
            case _ => true
  {
    assert Owns(s.calls[pid]) ==> HoldsLock(s, pid);
  }

  lemma MoveKeepsLocks(s: State, pid: nat, now: int, later: int, id: string, reply: Reply)
    requires LocksOk(s) && pid in s.calls
    ensures LocksOk(MoveStep(s, pid, now, later, id, reply))
  {
    var c := s.calls[pid];
    var s' := MoveStep(s, pid, now, later, id, reply);
    hide RunningStep, ClaimStep, MakeTaskStep, TakeLockStep, FinalWriteStep, LookUpStep,
         FetchStep, RecheckStep, NextPlatformStep, FinalCheckStep, RunStep;
    if c.at.TakeLock? {
      TakeLockKeepsLocks(s, pid);
    } else if c.at.FinalWrite? {
      FinalWriteKeepsLocks(s, pid);
    } else if c.at.Returned? {
      assert s' == s;
    } else {
      if OnPlatform(c) {
        var o := if c.at.Running? then RunStep(s.work, c.contentID, Platform(c), c.at.run, id, reply)
            else Continue(s.work, Run("", 0, "", Count));
        WorkingIsQuiet(s, pid, now, later, id, o);
      } else {
        PassingIsQuiet(s, pid);
      }
      assert Quiet(s, s', pid) by { hide Quiet, LocksOk; }
      QuietKeepsLocks(s, s', pid);
    }
  }

  lemma OthersKeepLocks(s: State, step: Step)
    requires LocksOk(s) && Enabled(s, step) && !step.Move?
    ensures LocksOk(Next(s, step))
  {
    var s' := Next(s, step);
    forall p | p in s'.calls && Owns(s'.calls[p]) ensures HoldsLock(s', p) {
      assert HoldsLock(s, p);
    }
    forall i | i in s'.contents && s'.contents[i].content.status == Publishing ensures HasOwner(s', i) {
      assert HasOwner(s, i);
    }
  }

  lemma {:induction false} LocksKept(s: State, step: Step)
    requires LocksOk(s)
    ensures LocksOk(Next(s, step))
  {
    if Enabled(s, step) {
      match step
      case Move(pid, now, later, id, reply) =>
        var s1 := s.(now := later);
        assert LocksOk(s1);
        MoveKeepsLocks(s1, pid, now, later, id, reply);
      case _ => OthersKeepLocks(s, step);
    }
  }
}
