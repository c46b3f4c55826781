/** The stores as the work of finished tasks: an environment that feeds their stories to the big-step calls makes them
    leave the same rows, attempts and posts, task after task. */
module SerialWorlds {
  import opened Contracts
  import opened Keys
  import opened PublishTables
  import opened Protocol
  import opened ProtocolLedger
  import opened ProtocolStories
  import R = Retry
  import BigStep = PublishRun
  import Whole = PublishTheorems

  // ----- What the environment has to answer -----

  /** The ids drawn for a task: its own, its attempts', and its post's. */
  function DrawsFor(w: Work, t: string): nat {
    1 + |Opened(w, t)| + (if t in w.posts then 1 else 0)
  }

  function DrawsUpTo(w: Work, ts: seq<string>): nat {
    if ts == [] then 0 else DrawsUpTo(w, ts[..|ts| - 1]) + DrawsFor(w, ts[|ts| - 1])
  }

  function PlatformOf(w: Work, t: string): string {
    if t in w.table.tasks then w.table.tasks[t].platform else ""
  }

  /** How far the adapter is after the loop of one more task. */
  function TalkPast(w: Work, from: R.Talk, t: string): R.Talk {
    var n := |Opened(w, t)|;
    if t !in w.table.tasks || n == 0 then from
    else
      var e := EndIn(w, t, n - 1);
      R.Talk(from.validated + n,
             from.uploaded + (if e.Invalid? then n - 1 else n),
             from.published + (if e.Invalid? || e.NotUploaded? then n - 1 else n))
  }

  function TalkUpTo(w: Work, ts: seq<string>, platform: string): R.Talk {
    if ts == [] then R.Talk(0, 0, 0)
    else
      var before, t := TalkUpTo(w, ts[..|ts| - 1], platform), ts[|ts| - 1];
      if PlatformOf(w, t) == platform then TalkPast(w, before, t) else before
  }

  /** From these cursors on, the environment draws the ids of the task and answers as its story tells. */
  ghost predicate FeedsTask(env: BigStep.Environment, w: Work, first: nat, from: R.Talk, t: string) {
    && t in w.table.tasks && PlatformOf(w, t) in env.scripts && env.ids(first) == t
    && (forall j: nat :: j < |Opened(w, t)| ==> FeedsAttempt(env, w, first, from, t, j))
    && (t in w.posts ==> env.ids(first + 1 + |Opened(w, t)|) == w.posts[t].id)
  }

  predicate FeedsAttempt(env: BigStep.Environment, w: Work, first: nat, from: R.Talk, t: string, j: nat)
    requires t in w.table.tasks && PlatformOf(w, t) in env.scripts && j < |Opened(w, t)|
  {
    && R.Drawn(env.ids, first + 1, j) == Opened(w, t)[j]
    && R.EndOf(env.scripts[PlatformOf(w, t)], from, j) == EndIn(w, t, j)
  }

  /** The same for tasks one after the other. */
  ghost predicate Feeds(env: BigStep.Environment, w: Work, ts: seq<string>) {
    ts == [] ||
    (var before, t := ts[..|ts| - 1], ts[|ts| - 1];
     && Feeds(env, w, before)
     && FeedsTask(env, w, DrawsUpTo(w, before), TalkUpTo(w, before, PlatformOf(w, t)), t))
  }

  lemma LastFed(env: BigStep.Environment, w: Work, before: seq<string>, t: string)
    requires Feeds(env, w, before + [t])
    ensures Feeds(env, w, before) && FeedsTask(env, w, DrawsUpTo(w, before), TalkUpTo(w, before, PlatformOf(w, t)), t)
  {
    assert (before + [t])[..|before|] == before;
    hide FeedsTask, DrawsUpTo, TalkUpTo;
  }

  // ----- The part of the stores that some tasks make up -----

  function TasksAmong(w: Work, ts: seq<string>): map<string, Task> {
    map t | t in w.table.tasks && t in ts :: w.table.tasks[t]
  }

  function IndexAmong(w: Work, ts: seq<string>): map<string, string> {
    map k | k in w.table.byCombo && w.table.byCombo[k] in ts :: w.table.byCombo[k]
  }

  function AttemptsAmong(w: Work, ts: seq<string>): AttemptTable {
    map id | id in w.attempts && w.attempts[id].taskID in ts :: w.attempts[id]
  }

  function PostsAmong(w: Work, ts: seq<string>): PostTable {
    map t | t in w.posts && t in ts :: w.posts[t]
  }

  /** The world holds exactly these tasks of the stores, with their attempts and posts, and stands where their loops
      have left the environment. */
  ghost predicate Holds(w: Work, ts: seq<string>, world: BigStep.World) {
    && world.table == TaskTable(TasksAmong(w, ts), IndexAmong(w, ts))
    && world.attempts == AttemptsAmong(w, ts) && world.posts == PostsAmong(w, ts)
    && world.drawn == DrawsUpTo(w, ts)
    && (forall p :: p in world.talks ==> world.talks[p] == TalkUpTo(w, ts, p))
    && Whole.Backed(world)
  }

  // ----- One platform whose task is new -----

  /** The loop that the story tells, in the environment that feeds it. */
  lemma FedLoop(env: BigStep.Environment, w: Work, first: nat, from: R.Talk, t: string)
    requires Story(w, t) && FeedsTask(env, w, first, from, t)
    ensures var task, script := w.table.tasks[t], env.scripts[PlatformOf(w, t)];
            var n, max := |Opened(w, t)|, task.policy.maxRetries;
            && n > 0 && max >= 0 && R.AttemptCount(script, from, max) == n
            && R.EndOf(script, from, n - 1) == EndIn(w, t, n - 1)
            && R.Told(script, from, max) == VerdictIn(w, t)
            && R.TalkAfter(script, from, n) == TalkPast(w, from, t)
  {
    hide R.EndOf, EndIn, R.Verdict;
    var script, n, max := env.scripts[PlatformOf(w, t)], |Opened(w, t)|, w.table.tasks[t].policy.maxRetries;
    forall j: nat | j < n ensures R.EndOf(script, from, j) == EndIn(w, t, j) {
      assert FeedsAttempt(env, w, first, from, t, j);
    }
    forall j | 0 <= j < n - 1 ensures R.Retries(R.EndOf(script, from, j)) { EarlierRetries(w, t, j); }
    R.AttemptsUnique(script, from, max, 0, n);
  }

  lemma EarlierRetries(w: Work, t: string, j: nat)
    requires Story(w, t) && j + 1 < |Opened(w, t)|
    ensures R.Retries(EndIn(w, t, j))
  {
    hide RecordOk;
  }

  /** The row that this loop leaves. */
  lemma FedRow(env: BigStep.Environment, w: Work, first: nat, from: R.Talk, t: string)
    requires Story(w, t) && FeedsTask(env, w, first, from, t)
    ensures var task, script := w.table.tasks[t], env.scripts[PlatformOf(w, t)];
            R.RowAfter(NewTask(t, task.contentID, task.platform), script, from, task.policy.maxRetries, |Opened(w, t)|)
              == task
  {
    var task, script := w.table.tasks[t], env.scripts[PlatformOf(w, t)];
    var row := NewTask(t, task.contentID, task.platform);
    FedLoop(env, w, first, from, t);
    assert row.status.CanTransitionTo(PublishTaskStatus.Processing);
    R.StoredAgreesWithTold(row, script, from, task.policy.maxRetries);
    hide R.RowAfter, R.AttemptCount, R.Told, FeedsTask, RecordOk, EndIn, R.Stored;
  }

  /** The records come one after the other. */
  lemma {:induction false} FedRecords(env: BigStep.Environment, w: Work, first: nat, from: R.Talk, t: string,
                                      before: AttemptTable, m: nat)
    requires Story(w, t) && FeedsTask(env, w, first, from, t) && m <= |Opened(w, t)|
    requires forall id :: id in before ==> id in w.attempts && before[id] == w.attempts[id]
    ensures var after := R.RecordsAfter(before, t, env.ids, first + 1, env.scripts[PlatformOf(w, t)], from, m);
            && (forall id :: id in after <==> id in before || id in Opened(w, t)[..m])
            && (forall id :: id in after ==> id in w.attempts && after[id] == w.attempts[id])
  {
    hide R.EndOf, EndIn, R.Record, R.Drawn;
    if m > 0 {
      FedRecords(env, w, first, from, t, before, m - 1);
      assert FeedsAttempt(env, w, first, from, t, m - 1) && RecordOk(w, t, m - 1);
      assert Opened(w, t)[..m] == Opened(w, t)[..m - 1] + [Opened(w, t)[m - 1]];
    }
  }

  /** The attempts of a task are the ones its story tells of. */
  lemma OwnAttempts(w: Work, t: string)
    requires WorkOk(w) && Story(w, t)
    ensures forall id :: id in w.attempts ==> (w.attempts[id].taskID == t <==> id in Opened(w, t))
  {
    forall id | id in w.attempts ensures w.attempts[id].taskID == t <==> id in Opened(w, t) {
      assert Traced(w, id);
      if id in Opened(w, t) {
        var j: nat :| j < |Opened(w, t)| && Opened(w, t)[j] == id;
        assert RecordOk(w, t, j);
      }
    }
    hide WorkOk, EndIn;
  }

  lemma AttemptsGrow(env: BigStep.Environment, w: Work, ts: seq<string>, first: nat, from: R.Talk, t: string)
    requires WorkOk(w) && Story(w, t) && FeedsTask(env, w, first, from, t)
    ensures R.RecordsAfter(AttemptsAmong(w, ts), t, env.ids, first + 1, env.scripts[PlatformOf(w, t)], from,
                           |Opened(w, t)|)
         == AttemptsAmong(w, ts + [t])
  {
    hide WorkOk, Story, R.RecordsAfter, Opened, FeedsAttempt;
    FedRecords(env, w, first, from, t, AttemptsAmong(w, ts), |Opened(w, t)|);
    assert Opened(w, t)[..|Opened(w, t)|] == Opened(w, t);
    OwnAttempts(w, t);
    OpenedAreStored(w, t);
    var after := R.RecordsAfter(AttemptsAmong(w, ts), t, env.ids, first + 1, env.scripts[PlatformOf(w, t)], from,
                                |Opened(w, t)|);
    forall id ensures id in after <==> id in AttemptsAmong(w, ts + [t]) {}
  }

  lemma OpenedAreStored(w: Work, t: string)
    requires Story(w, t)
    ensures forall id :: id in Opened(w, t) ==> id in w.attempts
  {
    forall id | id in Opened(w, t) ensures id in w.attempts {
      var j: nat :| j < |Opened(w, t)| && Opened(w, t)[j] == id;
      assert RecordOk(w, t, j);
    }
  }

  /** The task of a pair is reached through its key, and through no other. */
  lemma OwnKey(w: Work, t: string)
    requires WorkOk(w) && t in w.table.tasks
    ensures var combo := Combo(w.table.tasks[t].contentID, w.table.tasks[t].platform);
            && combo in w.table.byCombo && w.table.byCombo[combo] == t
            && forall k :: k in w.table.byCombo && w.table.byCombo[k] == t ==> k == combo
  {
    assert TaskReached(w.table, t);
    forall k | k in w.table.byCombo && w.table.byCombo[k] == t
      ensures k == Combo(w.table.tasks[t].contentID, w.table.tasks[t].platform)
    {
      assert IndexEntryOk(w.table, k);
    }
    hide Combo;
  }

  lemma TableGrows(w: Work, ts: seq<string>, t: string)
    requires WorkOk(w) && t in w.table.tasks && t !in ts
    ensures var table, task := TaskTable(TasksAmong(w, ts), IndexAmong(w, ts)), w.table.tasks[t];
            && !TaskExists(table, task.contentID, task.platform)
            && R.WithRow(CreateTask(table, task.contentID, task.platform, t), task, t)
            == TaskTable(TasksAmong(w, ts + [t]), IndexAmong(w, ts + [t]))
  {
    OwnKey(w, t);
    hide WorkOk, Combo, NewTask;
    var table, task := TaskTable(TasksAmong(w, ts), IndexAmong(w, ts)), w.table.tasks[t];
    var made := R.WithRow(CreateTask(table, task.contentID, task.platform, t), task, t);
    assert made.tasks == TasksAmong(w, ts + [t]);
    assert made.byCombo == IndexAmong(w, ts + [t]);
  }

  lemma PostsGrow(env: BigStep.Environment, w: Work, ts: seq<string>, first: nat, from: R.Talk, t: string)
    requires Story(w, t) && FeedsTask(env, w, first, from, t) && t !in ts
    ensures var script, n := env.scripts[PlatformOf(w, t)], |Opened(w, t)|;
            && R.PostsAfter(PostsAmong(w, ts), t, PlatformOf(w, t), env.ids, first + 1, script, from, n)
            == PostsAmong(w, ts + [t])
            && R.DrawsAfter(PostsAmong(w, ts), t, first + 1, script, from, n) == first + DrawsFor(w, t)
  {
    FedLoop(env, w, first, from, t);
    hide R.EndOf, EndIn, R.AttemptCount, R.Told, R.TalkAfter, VerdictIn, RecordOk;
  }

  lemma RanUnfolds(env: BigStep.Environment, world: BigStep.World, contentID: string, platform: string, t: string,
                   from: R.Talk, n: nat)
    requires platform in env.scripts && platform in world.talks
    requires t == env.ids(world.drawn) && from == world.talks[platform]
    requires n == R.AttemptCount(env.scripts[platform], from, NewTask(t, contentID, platform).policy.maxRetries)
    ensures var script, first, row := env.scripts[platform], world.drawn + 1, NewTask(t, contentID, platform);
            var after := BigStep.Ran(env, world, contentID, platform);
            && after.table == R.WithRow(CreateTask(world.table, contentID, platform, t),
                                        R.RowAfter(row, script, from, row.policy.maxRetries, n), t)
            && after.attempts == R.RecordsAfter(world.attempts, t, env.ids, first, script, from, n)
            && after.posts == R.PostsAfter(world.posts, t, platform, env.ids, first, script, from, n)
            && after.drawn == R.DrawsAfter(world.posts, t, first, script, from, n)
            && after.leases == world.leases && after.talks == world.talks[platform := R.TalkAfter(script, from, n)]
            && BigStep.RanTold(env, world, platform) == R.Told(script, from, row.policy.maxRetries)
  {
    hide R.RowAfter, R.RecordsAfter, R.PostsAfter, R.DrawsAfter, R.TalkAfter, R.AttemptCount, R.Told, R.WithRow,
         CreateTask;
  }

  /** What the loop of the next task leaves in the stores. */
  lemma NextStores(env: BigStep.Environment, w: Work, ts: seq<string>, first: nat, from: R.Talk, t: string)
    requires WorkOk(w) && Story(w, t) && t !in ts && FeedsTask(env, w, first, from, t)
    ensures var task, n := w.table.tasks[t], |Opened(w, t)|;
            var script, row := env.scripts[task.platform], NewTask(t, task.contentID, task.platform);
            && task.platform == PlatformOf(w, t) && env.ids(first) == t
            && n == R.AttemptCount(script, from, row.policy.maxRetries)
            && R.WithRow(CreateTask(TaskTable(TasksAmong(w, ts), IndexAmong(w, ts)), task.contentID, task.platform, t),
                         R.RowAfter(row, script, from, row.policy.maxRetries, n), t)
            == TaskTable(TasksAmong(w, ts + [t]), IndexAmong(w, ts + [t]))
            && R.RecordsAfter(AttemptsAmong(w, ts), t, env.ids, first + 1, script, from, n)
               == AttemptsAmong(w, ts + [t])
            && R.PostsAfter(PostsAmong(w, ts), t, task.platform, env.ids, first + 1, script, from, n)
            == PostsAmong(w, ts + [t])
            && R.DrawsAfter(PostsAmong(w, ts), t, first + 1, script, from, n) == first + DrawsFor(w, t)
            && R.TalkAfter(script, from, n) == TalkPast(w, from, t)
            && R.Told(script, from, row.policy.maxRetries) == VerdictIn(w, t)
  {
    FedLoop(env, w, first, from, t);
    FedRow(env, w, first, from, t);
    TableGrows(w, ts, t);
    AttemptsGrow(env, w, ts, first, from, t);
    PostsGrow(env, w, ts, first, from, t);
    hide WorkOk, FeedsAttempt, RecordOk, R.RowAfter, R.RecordsAfter, R.PostsAfter, R.DrawsAfter, R.TalkAfter,
         R.AttemptCount, R.Told, R.WithRow, CreateTask, TasksAmong, IndexAmong, AttemptsAmong, PostsAmong, VerdictIn,
         TalkPast, TalkUpTo, DrawsFor, EndIn;
  }

  /** The task is the next one to be made in the world. */
  ghost predicate NextUp(env: BigStep.Environment, w: Work, ts: seq<string>, world: BigStep.World, t: string) {
    && t in w.table.tasks && t !in ts && WorkOk(w) && Story(w, t) && BigStep.Registered(env, world)
    && world.table == TaskTable(TasksAmong(w, ts), IndexAmong(w, ts)) && world.drawn == DrawsUpTo(w, ts)
    && world.attempts == AttemptsAmong(w, ts) && world.posts == PostsAmong(w, ts)
    && PlatformOf(w, t) in world.talks && world.talks[PlatformOf(w, t)] == TalkUpTo(w, ts, PlatformOf(w, t))
    && FeedsTask(env, w, DrawsUpTo(w, ts), TalkUpTo(w, ts, PlatformOf(w, t)), t)
  }

  lemma RanTables(env: BigStep.Environment, w: Work, ts: seq<string>, world: BigStep.World, t: string)
    requires NextUp(env, w, ts, world, t)
    ensures var after := BigStep.Ran(env, world, w.table.tasks[t].contentID, w.table.tasks[t].platform);
            && after.table == TaskTable(TasksAmong(w, ts + [t]), IndexAmong(w, ts + [t]))
            && after.attempts == AttemptsAmong(w, ts + [t])
  {
    hide FeedsTask, WorkOk, Story, R.RowAfter, R.RecordsAfter, R.PostsAfter, R.DrawsAfter, R.TalkAfter, R.AttemptCount,
         R.Told, R.WithRow, CreateTask, TasksAmong, IndexAmong, AttemptsAmong, PostsAmong, VerdictIn, TalkPast,
         TalkUpTo, DrawsFor, BigStep.Ran, BigStep.RanTold, NewTask, Opened;
    var task, first, from := w.table.tasks[t], DrawsUpTo(w, ts), TalkUpTo(w, ts, PlatformOf(w, t));
    NextStores(env, w, ts, first, from, t);
    RanUnfolds(env, world, task.contentID, task.platform, t, from, |Opened(w, t)|);
  }

  lemma RanCursor(env: BigStep.Environment, w: Work, ts: seq<string>, world: BigStep.World, t: string)
    requires NextUp(env, w, ts, world, t)
    ensures var task := w.table.tasks[t];
            var after := BigStep.Ran(env, world, task.contentID, task.platform);
            && after.posts == PostsAmong(w, ts + [t])
            && after.drawn == DrawsUpTo(w, ts) + DrawsFor(w, t) && after.leases == world.leases
            && after.talks == world.talks[task.platform := TalkPast(w, TalkUpTo(w, ts, task.platform), t)]
            && BigStep.RanTold(env, world, task.platform) == VerdictIn(w, t)
  {
    hide FeedsTask, WorkOk, Story, R.RowAfter, R.RecordsAfter, R.PostsAfter, R.DrawsAfter, R.TalkAfter, R.AttemptCount,
         R.Told, R.WithRow, CreateTask, TasksAmong, IndexAmong, AttemptsAmong, PostsAmong, VerdictIn, TalkPast,
         TalkUpTo, DrawsFor, BigStep.Ran, BigStep.RanTold, NewTask, Opened;
    var task, first, from := w.table.tasks[t], DrawsUpTo(w, ts), TalkUpTo(w, ts, PlatformOf(w, t));
    NextStores(env, w, ts, first, from, t);
    RanUnfolds(env, world, task.contentID, task.platform, t, from, |Opened(w, t)|);
  }

  lemma TalksGrow(w: Work, ts: seq<string>, t: string, p: string)
    ensures TalkUpTo(w, ts + [t], p)
         == if PlatformOf(w, t) == p then TalkPast(w, TalkUpTo(w, ts, p), t) else TalkUpTo(w, ts, p)
  {
    assert (ts + [t])[..|ts|] == ts;
    hide TalkPast, PlatformOf;
  }

  /** The world after the claim holds the same tasks. */
  lemma ClaimedHolds(env: BigStep.Environment, w: Work, ts: seq<string>, world: BigStep.World, contentID: string,
                     platform: string)
    requires Holds(w, ts, world)
    ensures var combo := Combo(contentID, platform);
            var claimed := BigStep.Claimed(env, world, combo);
            && claimed == world.(leases := claimed.leases, ticks := claimed.ticks)
            && (TaskExists(world.table, contentID, platform) ==> Holds(w, ts, claimed))
            && (!TaskExists(world.table, contentID, platform) ==> BigStep.Granted(env, world, combo))
            && (forall c :: BigStep.TaskKeyOf(c) in claimed.leases ==> c in world.table.byCombo || c == combo)
  {
    Whole.ClaimBacked(env, world, Combo(contentID, platform));
    hide Claim, TasksAmong, IndexAmong, AttemptsAmong, PostsAmong, BigStep.TaskKeyOf, Combo;
    if !TaskExists(world.table, contentID, platform) && !BigStep.Granted(env, world, Combo(contentID, platform)) {
      Whole.RefusedIsFound(env, world, Combo(contentID, platform));
    }
  }

  lemma NextTalks(w: Work, ts: seq<string>, t: string, talks: map<string, R.Talk>, talks': map<string, R.Talk>)
    requires forall p :: p in talks ==> talks[p] == TalkUpTo(w, ts, p)
    requires talks' == talks[PlatformOf(w, t) := TalkPast(w, TalkUpTo(w, ts, PlatformOf(w, t)), t)]
    ensures forall p :: p in talks' ==> talks'[p] == TalkUpTo(w, ts + [t], p)
  {
    forall p | p in talks' ensures talks'[p] == TalkUpTo(w, ts + [t], p) { TalksGrow(w, ts, t, p); }
    hide TalkPast, PlatformOf;
  }

  lemma NextBacked(w: Work, ts: seq<string>, t: string, after: BigStep.World)
    requires WorkOk(w) && t in w.table.tasks && after.table.byCombo == IndexAmong(w, ts + [t])
    requires forall c :: BigStep.TaskKeyOf(c) in after.leases ==>
               c in IndexAmong(w, ts) || c == Combo(w.table.tasks[t].contentID, w.table.tasks[t].platform)
    ensures Whole.Backed(after)
  {
    OwnKey(w, t);
    hide WorkOk, Combo, BigStep.TaskKeyOf;
  }

  lemma ToHold(env: BigStep.Environment, w: Work, ts: seq<string>, world: BigStep.World, claimed: BigStep.World,
               t: string, after: BigStep.World)
    requires NextUp(env, w, ts, claimed, t) && Holds(w, ts, world)
    requires claimed == world.(leases := claimed.leases, ticks := claimed.ticks)
    requires forall c :: BigStep.TaskKeyOf(c) in claimed.leases ==>
               c in world.table.byCombo || c == Combo(w.table.tasks[t].contentID, w.table.tasks[t].platform)
    requires after == BigStep.Ran(env, claimed, w.table.tasks[t].contentID, w.table.tasks[t].platform)
    ensures Holds(w, ts + [t], after)
  {
    hide WorkOk, Story, FeedsTask, TasksAmong, IndexAmong, AttemptsAmong, PostsAmong, TalkPast, TalkUpTo, DrawsFor,
         BigStep.Ran, BigStep.TaskKeyOf, Combo, Whole.Backed, VerdictIn, BigStep.RanTold;
    RanTables(env, w, ts, claimed, t);
    RanCursor(env, w, ts, claimed, t);
    NextTalks(w, ts, t, claimed.talks, after.talks);
    NextBacked(w, ts, t, after);
    assert (ts + [t])[..|ts|] == ts;
  }

  /** A platform whose task is new: the world runs its loop. */
  lemma NewPlatform(env: BigStep.Environment, w: Work, ts: seq<string>, world: BigStep.World, t: string)
    requires WorkOk(w) && Story(w, t) && t !in ts && Holds(w, ts, world) && BigStep.Registered(env, world)
    requires FeedsTask(env, w, DrawsUpTo(w, ts), TalkUpTo(w, ts, PlatformOf(w, t)), t)
    ensures var c, p := w.table.tasks[t].contentID, w.table.tasks[t].platform;
            && Holds(w, ts + [t], BigStep.PlatformWorld(env, world, c, p))
            && BigStep.PlatformEntry(env, world, c, p) == BigStep.Executed(t, p, VerdictIn(w, t))
  {
    var c, p := w.table.tasks[t].contentID, w.table.tasks[t].platform;
    var claimed := BigStep.Claimed(env, world, Combo(c, p));
    ClaimedHolds(env, w, ts, world, c, p);
    TableGrows(w, ts, t);
    assert NextUp(env, w, ts, claimed, t);
    ToHold(env, w, ts, world, claimed, t, BigStep.Ran(env, claimed, c, p));
    RanCursor(env, w, ts, claimed, t);
    Whole.RanToldSame(env, world, claimed, p);
    hide WorkOk, Story, TasksAmong, IndexAmong, AttemptsAmong, PostsAmong, TalkPast, TalkUpTo, DrawsFor, BigStep.Ran,
         BigStep.Claimed, BigStep.Granted, BigStep.RanTold, BigStep.TaskKeyOf, Combo, VerdictIn, R.WithRow, CreateTask;
  }

  /** A platform whose task is there already. */
  lemma OldPlatform(env: BigStep.Environment, w: Work, ts: seq<string>, world: BigStep.World, t: string)
    requires WorkOk(w) && t in w.table.tasks && t in ts && Holds(w, ts, world) && BigStep.Registered(env, world)
    requires PlatformOf(w, t) in env.scripts
    ensures var task := w.table.tasks[t];
            var entry := BigStep.PlatformEntry(env, world, task.contentID, task.platform);
            && Holds(w, ts, BigStep.PlatformWorld(env, world, task.contentID, task.platform))
            && (entry.taskID, entry.status, entry.error) == (t, task.status, task.error)
  {
    var task := w.table.tasks[t];
    OwnKey(w, t);
    assert task.id == t by { assert TaskReached(w.table, t); }
    ClaimedHolds(env, w, ts, world, task.contentID, task.platform);
    hide WorkOk, BigStep.Claimed, BigStep.Granted, Combo, AttemptsAmong, PostsAmong;
  }

  // ----- Tasks at rest stay as they are -----

  ghost predicate AllSame(w: Work, w': Work, ts: seq<string>) {
    WorkOk(w) && WorkOk(w') && forall t :: t in ts ==> Story(w, t) && SameStory(w, w', t)
  }

  lemma SameCursor(w: Work, w': Work, t: string)
    requires Story(w, t) && SameStory(w, w', t)
    ensures DrawsFor(w', t) == DrawsFor(w, t) && PlatformOf(w', t) == PlatformOf(w, t)
    ensures forall from :: TalkPast(w', from, t) == TalkPast(w, from, t)
  {
    SameEnds(w, w', t);
    hide EndIn, RecordOk;
  }

  lemma {:induction false} SameCursors(w: Work, w': Work, ts: seq<string>)
    requires AllSame(w, w', ts)
    ensures DrawsUpTo(w', ts) == DrawsUpTo(w, ts)
    ensures forall p :: TalkUpTo(w', ts, p) == TalkUpTo(w, ts, p)
  {
    hide WorkOk, Story, SameStory, DrawsFor, TalkPast, PlatformOf;
    if ts != [] {
      SameCursors(w, w', ts[..|ts| - 1]);
      SameCursor(w, w', ts[|ts| - 1]);
    }
  }

  lemma SameFed(env: BigStep.Environment, w: Work, w': Work, first: nat, from: R.Talk, t: string)
    requires Story(w, t) && SameStory(w, w', t) && FeedsTask(env, w', first, from, t)
    ensures FeedsTask(env, w, first, from, t)
  {
    SameEnds(w, w', t);
    forall j: nat | j < |Opened(w, t)| ensures FeedsAttempt(env, w, first, from, t, j) {
      assert FeedsAttempt(env, w', first, from, t, j);
    }
    hide EndIn, RecordOk, R.EndOf;
  }

  /** An environment that feeds the later stores has fed the earlier ones. */
  lemma {:induction false} SameFeeds(env: BigStep.Environment, w: Work, w': Work, ts: seq<string>)
    requires AllSame(w, w', ts) && Feeds(env, w', ts)
    ensures Feeds(env, w, ts)
  {
    if ts != [] {
      var before, t := ts[..|ts| - 1], ts[|ts| - 1];
      SameFeeds(env, w, w', before);
      SameCursors(w, w', before);
      SameCursor(w, w', t);
      SameFed(env, w, w', DrawsUpTo(w, before), TalkUpTo(w, before, PlatformOf(w, t)), t);
    }
    hide WorkOk, Story, SameStory, FeedsTask, DrawsFor, TalkPast, PlatformOf, DrawsUpTo, TalkUpTo;
  }

  lemma {:induction false} FeedsPrefix(env: BigStep.Environment, w: Work, ts: seq<string>, more: seq<string>)
    requires Feeds(env, w, ts + more)
    ensures Feeds(env, w, ts)
    decreases |more|
  {
    if more == [] {
      assert ts + more == ts;
    } else {
      assert ts + more == ts + more[..|more| - 1] + [more[|more| - 1]];
      LastFed(env, w, ts + more[..|more| - 1], more[|more| - 1]);
      FeedsPrefix(env, w, ts, more[..|more| - 1]);
    }
  }

  lemma SameAttempts(w: Work, w': Work, ts: seq<string>)
    requires AllSame(w, w', ts)
    ensures AttemptsAmong(w', ts) == AttemptsAmong(w, ts)
  {
    forall t | t in ts ensures Story(w', t) { StoryStays(w, w', t); }
    forall id ensures id in AttemptsAmong(w', ts) ==> id in AttemptsAmong(w, ts) {
      if id in AttemptsAmong(w', ts) { SameAttempt(w, w', w'.attempts[id].taskID, id); }
    }
    forall id ensures id in AttemptsAmong(w, ts) ==> id in AttemptsAmong(w', ts) && w'.attempts[id] == w.attempts[id] {
      if id in AttemptsAmong(w, ts) { SameAttempt(w, w', w.attempts[id].taskID, id); }
    }
    hide WorkOk, Story, SameStory;
  }

  /** The attempts of a task at rest are the ones that it opened. */
  lemma SameAttempt(w: Work, w': Work, t: string, id: string)
    requires WorkOk(w) && WorkOk(w') && Story(w, t) && Story(w', t) && SameStory(w, w', t)
    ensures id in w.attempts && w.attempts[id].taskID == t ==> id in w'.attempts && w'.attempts[id] == w.attempts[id]
    ensures id in w'.attempts && w'.attempts[id].taskID == t ==> id in w.attempts && w.attempts[id].taskID == t
  {
    OwnAttempts(w, t);
    OwnAttempts(w', t);
    OpenedAreStored(w, t);
    hide WorkOk, Story;
  }

  /** And its key is its key. */
  lemma SameKey(w: Work, w': Work, t: string, k: string)
    requires WorkOk(w) && WorkOk(w') && SameStory(w, w', t)
    ensures k in w.table.byCombo && w.table.byCombo[k] == t <==> k in w'.table.byCombo && w'.table.byCombo[k] == t
  {
    OwnKey(w, t);
    OwnKey(w', t);
    hide WorkOk, Combo;
  }

  lemma SameIndex(w: Work, w': Work, ts: seq<string>)
    requires AllSame(w, w', ts)
    ensures IndexAmong(w', ts) == IndexAmong(w, ts)
  {
    hide WorkOk, Story, SameStory;
    forall k ensures k in IndexAmong(w, ts) ==> k in IndexAmong(w', ts) && w'.table.byCombo[k] == w.table.byCombo[k] {
      if k in IndexAmong(w, ts) { SameKey(w, w', w.table.byCombo[k], k); }
    }
    forall k ensures k in IndexAmong(w', ts) ==> k in IndexAmong(w, ts) {
      if k in IndexAmong(w', ts) { SameKey(w, w', w'.table.byCombo[k], k); }
    }
  }

  lemma SameTables(w: Work, w': Work, ts: seq<string>)
    requires AllSame(w, w', ts)
    ensures TasksAmong(w', ts) == TasksAmong(w, ts) && PostsAmong(w', ts) == PostsAmong(w, ts)
  {
    hide WorkOk, Story, Opened;
  }

  lemma SameHolds(w: Work, w': Work, ts: seq<string>, world: BigStep.World)
    requires AllSame(w, w', ts) && Holds(w, ts, world)
    ensures Holds(w', ts, world)
  {
    hide AllSame, DrawsUpTo, TalkUpTo, TasksAmong, IndexAmong, AttemptsAmong, PostsAmong, Whole.Backed;
    SameTables(w, w', ts);
    SameIndex(w, w', ts);
    SameAttempts(w, w', ts);
    SameCursors(w, w', ts);
  }

  // ----- An environment for a run -----

  predicate SameAnswers(a: R.Script, b: R.Script, upTo: R.Talk) {
    && (forall i: nat :: i < upTo.validated ==> b.validate(i) == a.validate(i))
    && (forall i: nat :: i < upTo.uploaded ==> b.upload(i) == a.upload(i))
    && (forall i: nat :: i < upTo.published ==> b.publish(i) == a.publish(i))
  }

  /** The environments agree as far as these tasks use them. */
  ghost predicate AgreeUpTo(env: BigStep.Environment, env': BigStep.Environment, w: Work, ts: seq<string>) {
    && env'.scripts.Keys == env.scripts.Keys
    && (forall i: nat :: i < DrawsUpTo(w, ts) ==> env'.ids(i) == env.ids(i))
    && (forall p :: p in env.scripts ==> SameAnswers(env.scripts[p], env'.scripts[p], TalkUpTo(w, ts, p)))
  }

  lemma SameEnd(a: R.Script, b: R.Script, w: Work, from: R.Talk, t: string, j: nat)
    requires Story(w, t) && j < |Opened(w, t)| && SameAnswers(a, b, TalkPast(w, from, t))
    requires R.EndOf(a, from, j) == EndIn(w, t, j)
    ensures R.EndOf(b, from, j) == EndIn(w, t, j)
  {
    if j + 1 < |Opened(w, t)| { EarlierRetries(w, t, j); }
    hide RecordOk, EndIn;
  }

  /** What the environments agree on for one more task. */
  lemma AgreeHere(env: BigStep.Environment, env': BigStep.Environment, w: Work, ts: seq<string>, t: string)
    requires AgreeUpTo(env, env', w, ts + [t]) && PlatformOf(w, t) in env.scripts
    ensures PlatformOf(w, t) in env'.scripts
    ensures SameAnswers(env.scripts[PlatformOf(w, t)], env'.scripts[PlatformOf(w, t)],
                        TalkPast(w, TalkUpTo(w, ts, PlatformOf(w, t)), t))
    ensures forall i: nat :: i < DrawsUpTo(w, ts) + DrawsFor(w, t) ==> env'.ids(i) == env.ids(i)
  {
    assert (ts + [t])[..|ts|] == ts;
    TalksGrow(w, ts, t, PlatformOf(w, t));
    hide TalkPast, PlatformOf, DrawsFor, SameAnswers;
  }

  lemma AgreeOne(env: BigStep.Environment, env': BigStep.Environment, w: Work, first: nat, from: R.Talk, t: string)
    requires Story(w, t) && PlatformOf(w, t) in env.scripts && PlatformOf(w, t) in env'.scripts
    requires SameAnswers(env.scripts[PlatformOf(w, t)], env'.scripts[PlatformOf(w, t)], TalkPast(w, from, t))
    requires forall i: nat :: i < first + DrawsFor(w, t) ==> env'.ids(i) == env.ids(i)
    requires FeedsTask(env, w, first, from, t)
    ensures FeedsTask(env', w, first, from, t)
  {
    hide Story, EndIn, R.EndOf, TalkPast, SameAnswers, Opened;
    forall j: nat | j < |Opened(w, t)| ensures FeedsAttempt(env', w, first, from, t, j) {
      assert FeedsAttempt(env, w, first, from, t, j);
      SameEnd(env.scripts[PlatformOf(w, t)], env'.scripts[PlatformOf(w, t)], w, from, t, j);
    }
  }

  /** The cursors only move forward. */
  lemma AgreeBefore(env: BigStep.Environment, env': BigStep.Environment, w: Work, ts: seq<string>, t: string)
    requires AgreeUpTo(env, env', w, ts + [t])
    ensures AgreeUpTo(env, env', w, ts)
  {
    assert (ts + [t])[..|ts|] == ts;
    forall p | p in env.scripts ensures SameAnswers(env.scripts[p], env'.scripts[p], TalkUpTo(w, ts, p)) {
      TalksGrow(w, ts, t, p);
    }
    hide EndIn;
  }

  lemma {:induction false} AgreeingFeeds(env: BigStep.Environment, env': BigStep.Environment, w: Work, ts: seq<string>)
    requires AgreeUpTo(env, env', w, ts) && Feeds(env, w, ts) && forall t :: t in ts ==> Story(w, t)
    ensures Feeds(env', w, ts)
  {
    hide AgreeUpTo, Story, FeedsAttempt, SameAnswers, TalkPast, DrawsFor;
    if ts != [] {
      var before, t := ts[..|ts| - 1], ts[|ts| - 1];
      assert ts == before + [t];
      AgreeBefore(env, env', w, before, t);
      AgreeingFeeds(env, env', w, before);
      AgreeHere(env, env', w, before, t);
      AgreeOne(env, env', w, DrawsUpTo(w, before), TalkUpTo(w, before, PlatformOf(w, t)), t);
    }
  }

  function Checked(e: R.AttemptEnd): Option<string> {
    if e.Invalid? then Some(e.cause) else None
  }

  function Sent(e: R.AttemptEnd): Option<string> {
    if e.NotUploaded? then Some(e.cause) else None
  }

  function Replied(e: R.AttemptEnd): R.PublishReply {
    match e
    case Posted(result) => R.Accepted(result)
    case Refused(cause, retryable) => R.PlatformError(cause, retryable)
    case _ => R.OtherError("")
  }

  /** The script that from here on answers as the story of the task tells. */
  function Retold(a: R.Script, w: Work, from: R.Talk, t: string): R.Script
    requires t in w.table.tasks
  {
    R.Script((i: nat) => if i < from.validated then a.validate(i) else Checked(EndIn(w, t, i - from.validated)),
             (i: nat) => if i < from.uploaded then a.upload(i) else Sent(EndIn(w, t, i - from.uploaded)),
             (i: nat) => if i < from.published then a.publish(i) else Replied(EndIn(w, t, i - from.published)))
  }

  function DrawsOf(w: Work, t: string): seq<string> {
    [t] + Opened(w, t) + (if t in w.posts then [w.posts[t].id] else [])
  }

  /** One more task is fed. */
  function FedToo(env: BigStep.Environment, w: Work, ts: seq<string>, t: string): BigStep.Environment
    requires t in w.table.tasks && PlatformOf(w, t) in env.scripts
  {
    var first, p := DrawsUpTo(w, ts), PlatformOf(w, t);
    env.(ids := (i: nat) => if first <= i < first + |DrawsOf(w, t)| then DrawsOf(w, t)[i - first] else env.ids(i),
         scripts := env.scripts[p := Retold(env.scripts[p], w, TalkUpTo(w, ts, p), t)])
  }

  lemma RetoldEnds(a: R.Script, w: Work, from: R.Talk, t: string, j: nat)
    requires t in w.table.tasks
    ensures SameAnswers(a, Retold(a, w, from, t), from)
    ensures R.EndOf(Retold(a, w, from, t), from, j) == EndIn(w, t, j)
  {
    hide EndIn;
    var b, e := Retold(a, w, from, t), EndIn(w, t, j);
    assert b.validate(from.validated + j) == Checked(EndIn(w, t, from.validated + j - from.validated)) == Checked(e);
    assert b.upload(from.uploaded + j) == Sent(EndIn(w, t, from.uploaded + j - from.uploaded)) == Sent(e);
    assert b.publish(from.published + j) == Replied(EndIn(w, t, from.published + j - from.published)) == Replied(e);
  }

  lemma FedTooFeeds(env: BigStep.Environment, w: Work, ts: seq<string>, t: string)
    requires t in w.table.tasks && PlatformOf(w, t) in env.scripts
    ensures AgreeUpTo(env, FedToo(env, w, ts, t), w, ts)
    ensures FeedsTask(FedToo(env, w, ts, t), w, DrawsUpTo(w, ts), TalkUpTo(w, ts, PlatformOf(w, t)), t)
  {
    hide EndIn, DrawsUpTo, TalkUpTo, Retold, R.EndOf, SameAnswers, Opened;
    var env', first, from := FedToo(env, w, ts, t), DrawsUpTo(w, ts), TalkUpTo(w, ts, PlatformOf(w, t));
    forall j: nat | j < |Opened(w, t)| ensures FeedsAttempt(env', w, first, from, t, j) {
      assert DrawsOf(w, t)[1 + j] == Opened(w, t)[j];
      RetoldEnds(env.scripts[PlatformOf(w, t)], w, from, t, j);
    }
    forall p | p in env.scripts ensures SameAnswers(env.scripts[p], env'.scripts[p], TalkUpTo(w, ts, p)) {
      RetoldEnds(env.scripts[p], w, from, t, 0);
      SameScript(env.scripts[p], TalkUpTo(w, ts, p));
    }
  }

  lemma SameScript(a: R.Script, upTo: R.Talk)
    ensures SameAnswers(a, a, upTo)
  {
  }

  /** Whatever the clock shows, some environment feeds the tasks. */
  lemma {:induction false} SomeEnvironment(w: Work, ts: seq<string>, registered: set<string>, readings: nat -> int)
    returns (env: BigStep.Environment)
    requires forall t :: t in ts ==> t in w.table.tasks && Story(w, t) && PlatformOf(w, t) in registered
    ensures env.scripts.Keys == registered && env.readings == readings && Feeds(env, w, ts)
  {
    hide Story, AgreeUpTo, FeedsTask, DrawsUpTo, TalkUpTo;
    if ts == [] {
      env := BigStep.Environment((i: nat) => "", readings, map p | p in registered :: Silent());
    } else {
      var before, t := ts[..|ts| - 1], ts[|ts| - 1];
      var some := SomeEnvironment(w, before, registered, readings);
      FedTooFeeds(some, w, before, t);
      env := FedToo(some, w, before, t);
      AgreeingFeeds(some, env, w, before);
    }
  }

  function Silent(): R.Script {
    R.Script((i: nat) => None, (i: nat) => None, (i: nat) => R.OtherError(""))
  }
}
