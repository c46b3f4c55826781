/** Every leased task key has its task, or its task is about to be made by the call that holds the content's
    lock: what every step of module Protocol keeps about leases and the task index. */
module ProtocolKeys {
  import opened Keys
  import opened PublishTables
  import opened Protocol
  import opened ProtocolLocks

  /** The last claimant of this key has not yet made its task. */
  predicate Claiming(s: State, combo: string) {
    && combo in s.claimedBy && s.claimedBy[combo] in s.calls
    && s.calls[s.claimedBy[combo]].at.MakeTask?
    && ComboOf(s.calls[s.claimedBy[combo]]) == combo
  }

  predicate LookUpOk(s: State, c: Call) {
    c.at.LookUp? ==> ComboOf(c) in s.work.table.byCombo
  }

  ghost predicate KeysOk(s: State) {
    && (forall combo: string :: TaskKey(combo) in s.leases ==> combo in s.work.table.byCombo || Claiming(s, combo))
    && (forall pid :: pid in s.calls ==> LookUpOk(s, s.calls[pid]))
  }

  /** One call moved without claiming; leases only disappeared and the index only grew. */
  predicate KeyQuiet(s: State, s': State, pid: nat) {
    && pid in s.calls && pid in s'.calls && s'.calls == s.calls[pid := s'.calls[pid]]
    && s'.leases.Keys <= s.leases.Keys && s'.claimedBy == s.claimedBy
    && s.work.table.byCombo.Keys <= s'.work.table.byCombo.Keys
    && (s.calls[pid].at.MakeTask? ==> ComboOf(s.calls[pid]) in s'.work.table.byCombo)
    && LookUpOk(s', s'.calls[pid])
  }

  lemma KeyQuietKeepsKeys(s: State, s': State, pid: nat)
    requires KeysOk(s) && KeyQuiet(s, s', pid)
    ensures KeysOk(s')
  {
    forall combo: string | TaskKey(combo) in s'.leases
      ensures combo in s'.work.table.byCombo || Claiming(s', combo)
    {
      assert TaskKey(combo) in s.leases;
      assert combo in s.work.table.byCombo || Claiming(s, combo);
    }
    forall p | p in s'.calls ensures LookUpOk(s', s'.calls[p]) {
      if p != pid { assert LookUpOk(s, s.calls[p]); }
    }
  }

  lemma PrepareKeepsIndex(w: Work, run: Run, id: string, reply: Reply)
    ensures PrepareStep(w, run, id, reply).work.table.byCombo == w.table.byCombo
  {
  }

  lemma SettleKeepsIndex(w: Work, platform: string, run: Run, id: string)
    ensures SucceedStep(w, platform, run, id).work.table.byCombo == w.table.byCombo
    ensures FailStep(w, run).work.table.byCombo == w.table.byCombo
  {
  }

  lemma RunKeepsIndex(w: Work, contentID: string, platform: string, run: Run, id: string, reply: Reply)
    ensures RunStep(w, contentID, platform, run, id, reply).work.table.byCombo == w.table.byCombo
  {
    PrepareKeepsIndex(w, run, id, reply);
    SettleKeepsIndex(w, platform, run, id);
    hide PrepareStep, SucceedStep, FailStep;
  }

  /** Two calls that own contents and work on the same key are the same call. */
  lemma SameKeySameCall(s: State, p: nat, q: nat)
    requires LocksOk(s) && p in s.calls && q in s.calls && Owns(s.calls[p]) && Owns(s.calls[q])
    requires ComboOf(s.calls[p]) == ComboOf(s.calls[q])
    ensures p == q && s.calls[p].contentID == s.calls[q].contentID
  {
    assert HoldsLock(s, p) && HoldsLock(s, q);
    JoinInjective(s.calls[p].contentID, Platform(s.calls[p]), s.calls[q].contentID, Platform(s.calls[q]));
  }

  /** A refused claim means the task is there. */
  lemma RefusedMeansMade(s: State, pid: nat, now: int)
    requires LocksOk(s) && KeysOk(s) && pid in s.calls && s.calls[pid].at.ClaimKey?
    requires !ClaimGranted(s.leases, TaskKey(ComboOf(s.calls[pid])), now)
    ensures ComboOf(s.calls[pid]) in s.work.table.byCombo
  {
    var combo := ComboOf(s.calls[pid]);
    if combo !in s.work.table.byCombo {
      assert Claiming(s, combo);
      SameKeySameCall(s, s.claimedBy[combo], pid);
      assert false;
    }
  }

  lemma ClaimKeepsKeys(s: State, pid: nat, now: int, later: int)
    requires LocksOk(s) && KeysOk(s) && pid in s.calls && s.calls[pid].at.ClaimKey?
    ensures KeysOk(ClaimStep(s, pid, s.calls[pid], now, later))
  {
    var mine := ComboOf(s.calls[pid]);
    var s' := ClaimStep(s, pid, s.calls[pid], now, later);
    if ClaimGranted(s.leases, TaskKey(mine), now) {
      forall combo: string | TaskKey(combo) in s'.leases
        ensures combo in s'.work.table.byCombo || Claiming(s', combo)
      {
        if TaskKey(combo) == TaskKey(mine) {
          JoinInjective(TASK_SCOPE, combo, TASK_SCOPE, mine);
        } else {
          assert combo in s.work.table.byCombo || Claiming(s, combo);
        }
      }
      forall p | p in s'.calls ensures LookUpOk(s', s'.calls[p]) {
        if p != pid { assert LookUpOk(s, s.calls[p]); }
      }
    } else {
      RefusedMeansMade(s, pid, now);
      KeyQuietKeepsKeys(s, s', pid);
    }
  }

  lemma MovingIsKeyQuiet(s: State, pid: nat)
    requires pid in s.calls
    ensures var c := s.calls[pid];
            match c.at
            case Fetch => KeyQuiet(s, Put(s, pid, FetchStep(s.contents, c)), pid)
            case Recheck(seen) => KeyQuiet(s, Put(s, pid, RecheckStep(s.contents, c, seen)), pid)
            case TakeLock => KeyQuiet(s, TakeLockStep(s, pid, c), pid)
            case NextPlatform => KeyQuiet(s, Put(s, pid, NextPlatformStep(s.registered, c)), pid)
            case LookUp => KeyQuiet(s, Put(s, pid, LookUpStep(s.work.table, c)), pid)
            case FinalCheck => KeyQuiet(s, Put(s, pid, FinalCheckStep(s.contents, c)), pid)
            case FinalWrite => KeyQuiet(s, FinalWriteStep(s, pid, c), pid)
            case _ => true
  {
    hide Aggregate, UpdateContent;
  }

  lemma MakingIsKeyQuiet(s: State, pid: nat, id: string)
    requires pid in s.calls && s.calls[pid].at.MakeTask?
    ensures KeyQuiet(s, MakeTaskStep(s, pid, s.calls[pid], id), pid)
  {
  }

  lemma RunningIsKeyQuiet(s: State, pid: nat, o: Outcome)
    requires pid in s.calls && s.calls[pid].at.Running? && o.work.table.byCombo == s.work.table.byCombo
    ensures KeyQuiet(s, RunningStep(s, pid, s.calls[pid], o), pid)
  {
  }

  lemma MoveKeepsKeys(s: State, pid: nat, now: int, later: int, id: string, reply: Reply)
    requires LocksOk(s) && KeysOk(s) && pid in s.calls
    ensures KeysOk(MoveStep(s, pid, now, later, id, reply))
  {
    var c := s.calls[pid];
    var s' := MoveStep(s, pid, now, later, id, reply);
    hide RunningStep, ClaimStep, MakeTaskStep, TakeLockStep, FinalWriteStep, LookUpStep,
         FetchStep, RecheckStep, NextPlatformStep, FinalCheckStep, RunStep;
    if c.at.ClaimKey? {
      ClaimKeepsKeys(s, pid, now, later);
    } else if c.at.Returned? {
      assert s' == s;
    } else {
      if c.at.MakeTask? {
        MakingIsKeyQuiet(s, pid, id);
      } else if c.at.Running? {
        RunKeepsIndex(s.work, c.contentID, Platform(c), c.at.run, id, reply);
        RunningIsKeyQuiet(s, pid, RunStep(s.work, c.contentID, Platform(c), c.at.run, id, reply));
      } else {
        MovingIsKeyQuiet(s, pid);
      }
      assert KeyQuiet(s, s', pid) by { hide KeyQuiet, LocksOk, KeysOk; }
      KeyQuietKeepsKeys(s, s', pid);
    }
  }

  lemma OthersKeepKeys(s: State, step: Step)
    requires KeysOk(s) && Enabled(s, step) && !step.Move?
    ensures KeysOk(Next(s, step))
  {
    var s' := Next(s, step);
    forall combo: string | TaskKey(combo) in s'.leases
      ensures combo in s'.work.table.byCombo || Claiming(s', combo)
    {
      if step.ClaimOther? && TaskKey(combo) == ScopedKey(step.scope, step.key) {
        JoinInjective(TASK_SCOPE, combo, step.scope, step.key);
        assert false;
      } else {
        assert TaskKey(combo) in s.leases;
        assert combo in s.work.table.byCombo || Claiming(s, combo);
      }
    }
    forall p | p in s'.calls ensures LookUpOk(s', s'.calls[p]) {
      if p in s.calls { assert LookUpOk(s, s.calls[p]); }
    }
  }

  lemma {:induction false} KeysKept(s: State, step: Step)
    requires LocksOk(s) && KeysOk(s)
    ensures KeysOk(Next(s, step))
  {
    if Enabled(s, step) {
      match step
      case Move(pid, now, later, id, reply) =>
        var s1 := s.(now := later);
        assert LocksOk(s1) && KeysOk(s1);
        MoveKeepsKeys(s1, pid, now, later, id, reply);
      case _ => OthersKeepKeys(s, step);
    }
  }
}
