/** What a whole Publish call guarantees when no other call interferes, and what calling it again does. */
module PublishTheorems {
  import opened Contracts
  import opened Keys
  import opened Policy
  import opened PublishStores
  import opened Retry
  import opened PublishRun
  import PT = PublishTables

  // ----- What holds between calls -----

  /** A task between two calls is succeeded with a post, or failed or still processing without one. */
  predicate Resting(w: World, id: string)
    requires id in w.table.tasks
  {
    && w.table.tasks[id].status in [Succeeded, PublishTaskStatus.Failed, Processing]
    && (id in w.posts <==> w.table.tasks[id].status == Succeeded)
  }

  /** Every lease on a task key has a task behind it. */
  ghost predicate Backed(w: World) {
    forall combo :: TaskKeyOf(combo) in w.leases ==> combo in w.table.byCombo
  }

  ghost predicate Sound(env: Environment, w: World) {
    && Registered(env, w)
    && DistinctIDs(env.ids) && Unused(env.ids, w.drawn, w.table.tasks.Keys)
    && PT.Indexed(w.table) && Backed(w)
    && (forall id :: id in w.table.tasks ==> Resting(w, id))
    && w.posts.Keys <= w.table.tasks.Keys
  }

  /** Empty stores are sound, whatever is registered. */
  lemma EmptyStoresAreSound(env: Environment, w: World)
    requires Registered(env, w) && DistinctIDs(env.ids)
    requires w.table == PT.TaskTable(map[], map[]) && w.leases == map[] && w.posts == map[]
    ensures Sound(env, w)
  {
  }

  /** The entry that a call reads from the stores for a pair whose task is there already. */
  function Known(env: Environment, t: PT.TaskTable, contentID: string, platform: string): TaskStatus {
    if platform !in env.scripts then Unexplained(platform, PT.PlatformNotFound(platform))
    else Existing(t, contentID, platform, PT.CreateFailed)
  }

  predicate Found(env: Environment, t: PT.TaskTable, contentID: string, platform: string) {
    platform in env.scripts ==> PT.LookUpTask(t, contentID, platform).Ok?
  }

  /** The entry and the stores tell the same. A loop out of retries is the exception: it tells Dead, but the
      store refused that and keeps Processing. */
  predicate Agrees(e: TaskStatus, stored: TaskStatus) {
    && e.taskID == stored.taskID && e.platform == stored.platform
    && (stored.status, stored.error) == (if e.status == Dead then (Processing, PT.NoMessage) else (e.status, e.error))
  }

  // ----- Claims and new tasks -----

  lemma TaskKeysDiffer(combo: string, combo': string)
    requires TaskKeyOf(combo) == TaskKeyOf(combo')
    ensures combo == combo'
  {
    JoinInjective(PT.TASK_SCOPE, combo, PT.TASK_SCOPE, combo');
  }

  /** A claim leaves only its own key unbacked. */
  lemma ClaimBacked(env: Environment, w: World, combo: string)
    requires Backed(w)
    ensures combo in w.table.byCombo ==> Backed(Claimed(env, w, combo))
    ensures forall c :: TaskKeyOf(c) in Claimed(env, w, combo).leases ==> c in w.table.byCombo || c == combo
  {
    forall c | TaskKeyOf(c) in Claimed(env, w, combo).leases ensures c in w.table.byCombo || c == combo {
      if TaskKeyOf(c) == TaskKeyOf(combo) { TaskKeysDiffer(c, combo); }
    }
  }

  lemma RefusedIsFound(env: Environment, w: World, combo: string)
    requires Backed(w) && !Granted(env, w, combo)
    ensures combo in w.table.byCombo
  {
  }

  lemma IndexedIsFound(t: PT.TaskTable, contentID: string, platform: string)
    requires PT.Indexed(t) && PT.TaskExists(t, contentID, platform)
    ensures PT.LookUpTask(t, contentID, platform).Ok?
    ensures var task := PT.LookUpTask(t, contentID, platform).value;
            task.id in t.tasks && t.tasks[task.id] == task && task.id == t.byCombo[Combo(contentID, platform)]
  {
    assert PT.IndexEntryOk(t, Combo(contentID, platform));
    assert PT.TaskReached(t, t.byCombo[Combo(contentID, platform)]);
  }

  /** The table after a task was created for a pair and its row rewritten. */
  function Made(t: PT.TaskTable, contentID: string, platform: string, row: PT.Task, id: string): PT.TaskTable {
    WithRow(PT.CreateTask(t, contentID, platform, id), row, id)
  }

  lemma MadeIndexed(t: PT.TaskTable, contentID: string, platform: string, row: PT.Task, id: string)
    requires PT.Indexed(t) && !PT.TaskExists(t, contentID, platform) && id !in t.tasks
    requires SameTask(PT.NewTask(id, contentID, platform), row)
    ensures PT.Indexed(Made(t, contentID, platform, row, id))
    ensures PT.LookUpTask(Made(t, contentID, platform, row, id), contentID, platform) == Ok(row)
  {
    var t' := Made(t, contentID, platform, row, id);
    forall k | k in t'.byCombo ensures PT.IndexEntryOk(t', k) {
      if k in t.byCombo { assert PT.IndexEntryOk(t, k); }
    }
    forall u | u in t'.tasks ensures PT.TaskReached(t', u) {
      if u != id { assert PT.TaskReached(t, u); }
    }
  }

  /** Nothing stored is lost or rewritten. */
  ghost predicate Grows(t: PT.TaskTable, t': PT.TaskTable) {
    && (forall k :: k in t.byCombo ==> k in t'.byCombo && t'.byCombo[k] == t.byCombo[k])
    && (forall id :: id in t.tasks ==> id in t'.tasks && t'.tasks[id] == t.tasks[id])
  }

  /** Whatever is new belongs to the content. */
  predicate OnlyFor(t: PT.TaskTable, t': PT.TaskTable, contentID: string) {
    forall id :: id in t'.tasks && id !in t.tasks ==> t'.tasks[id].contentID == contentID
  }

  lemma GrowthKeepsKnown(env: Environment, t: PT.TaskTable, t': PT.TaskTable, contentID: string, platform: string)
    requires Grows(t, t') && Found(env, t, contentID, platform)
    ensures Found(env, t', contentID, platform) &&
            Known(env, t', contentID, platform) == Known(env, t, contentID, platform)
  {
  }

  // ----- One platform -----

  /** One platform of a call keeps everything, finds or makes the task of the pair, and reports what is stored. */
  ghost predicate StepOk(env: Environment, w: World, contentID: string, platform: string) {
    Sound(env, w) &&
    var w' := PlatformWorld(env, w, contentID, platform);
    && Sound(env, w') && Grows(w.table, w'.table) && OnlyFor(w.table, w'.table, contentID)
    && Found(env, w'.table, contentID, platform)
    && Agrees(PlatformEntry(env, w, contentID, platform), Known(env, w'.table, contentID, platform))
  }

  lemma ExistingStep(env: Environment, w: World, contentID: string, platform: string)
    requires Sound(env, w) && platform in env.scripts && PT.TaskExists(w.table, contentID, platform)
    ensures StepOk(env, w, contentID, platform)
  {
    ClaimBacked(env, w, Combo(contentID, platform));
    IndexedIsFound(w.table, contentID, platform);
    var task := PT.LookUpTask(w.table, contentID, platform).value;
    assert Resting(w, task.id);
    var w' := Claimed(env, w, Combo(contentID, platform));
    forall id | id in w'.table.tasks ensures Resting(w', id) { assert Resting(w, id); }
    hide PT.Indexed, Backed, DistinctIDs, Unused, Resting, PT.LookUpTask, Granted;
  }

  /** The new task is the only change to the tables. */
  predicate OneMore(env: Environment, w: World, w': World, contentID: string, platform: string) {
    var id := env.ids(w.drawn);
    && Registered(env, w') && !PT.TaskExists(w.table, contentID, platform) && id !in w.table.tasks
    && id in w'.table.tasks && w'.table == Made(w.table, contentID, platform, w'.table.tasks[id], id)
    && SameTask(PT.NewTask(id, contentID, platform), w'.table.tasks[id])
    && w'.table.tasks[id].status in [Succeeded, PublishTaskStatus.Failed, Processing]
    && w'.posts.Keys == (if w'.table.tasks[id].status == Succeeded then w.posts.Keys + {id} else w.posts.Keys)
    && w'.drawn > w.drawn
  }

  lemma OneMoreGrows(env: Environment, w: World, w': World, contentID: string, platform: string)
    requires OneMore(env, w, w', contentID, platform)
    ensures Grows(w.table, w'.table) && OnlyFor(w.table, w'.table, contentID)
    ensures w'.table.tasks.Keys == w.table.tasks.Keys + {env.ids(w.drawn)}
    ensures w'.table.byCombo.Keys == w.table.byCombo.Keys + {Combo(contentID, platform)}
  {
    hide Combo;
  }

  lemma OneMoreRests(env: Environment, w: World, w': World, contentID: string, platform: string)
    requires OneMore(env, w, w', contentID, platform) && w.posts.Keys <= w.table.tasks.Keys
    requires forall id :: id in w.table.tasks ==> Resting(w, id)
    ensures forall id :: id in w'.table.tasks ==> Resting(w', id)
    ensures w'.posts.Keys <= w'.table.tasks.Keys
  {
    hide SameTask, Combo;
    forall u | u in w'.table.tasks ensures Resting(w', u) {
      if u != env.ids(w.drawn) { assert Resting(w, u); }
    }
  }

  lemma StillUnused(env: Environment, w: World, w': World)
    requires DistinctIDs(env.ids) && Unused(env.ids, w.drawn, w.table.tasks.Keys) && w'.drawn > w.drawn
    requires w'.table.tasks.Keys == w.table.tasks.Keys + {env.ids(w.drawn)}
    ensures Unused(env.ids, w'.drawn, w'.table.tasks.Keys)
  {
    forall i: nat | i >= w'.drawn ensures env.ids(i) !in w'.table.tasks.Keys {
      assert i != w.drawn;
    }
  }

  lemma OneMoreSound(env: Environment, w: World, w': World, contentID: string, platform: string)
    requires Sound(env, w) && OneMore(env, w, w', contentID, platform)
    requires forall c :: TaskKeyOf(c) in w'.leases ==> c in w.table.byCombo || c == Combo(contentID, platform)
    ensures Sound(env, w') && Grows(w.table, w'.table) && OnlyFor(w.table, w'.table, contentID)
    ensures PT.LookUpTask(w'.table, contentID, platform) == Ok(w'.table.tasks[env.ids(w.drawn)])
  {
    hide PT.Indexed, TaskKeyOf, Combo, Resting, Made, SameTask, PT.LookUpTask, PT.TaskExists, Grows, OnlyFor,
         DistinctIDs, Unused;
    var id := env.ids(w.drawn);
    OneMoreGrows(env, w, w', contentID, platform);
    OneMoreRests(env, w, w', contentID, platform);
    MadeIndexed(w.table, contentID, platform, w'.table.tasks[id], id);
    StillUnused(env, w, w');
  }

  /** What was told of the new task, and what is stored of it. */
  predicate ToldWell(told: RetryResult, task: PT.Task) {
    && told.status in [Succeeded, PublishTaskStatus.Failed, Dead]
    && (told.result.Some? <==> told.status == Succeeded) && (told.status == Succeeded ==> told.error == PT.NoMessage)
    && (task.status, task.error) == Stored(told)
  }

  lemma RanPosts(env: Environment, w: World, contentID: string, platform: string)
    requires Registered(env, w) && platform in env.scripts && env.ids(w.drawn) !in w.posts
    ensures var w' := Ran(env, w, contentID, platform);
            && w'.posts.Keys
               == (if RanTold(env, w, platform).status == Succeeded then w.posts.Keys + {env.ids(w.drawn)}
                   else w.posts.Keys)
            && w'.drawn > w.drawn
  {
    NeverFallsThrough(env.scripts[platform], w.talks[platform], DefaultRetryPolicy().maxRetries);
    hide EndOf, RowAfter, RecordsAfter, TalkAfter, AttemptCount, WithRow, Verdict;
  }

  lemma RanRow(env: Environment, w: World, contentID: string, platform: string)
    requires Registered(env, w) && platform in env.scripts
    ensures var id := env.ids(w.drawn);
            var w' := Ran(env, w, contentID, platform);
            && id in w'.table.tasks && w'.table == Made(w.table, contentID, platform, w'.table.tasks[id], id)
            && SameTask(PT.NewTask(id, contentID, platform), w'.table.tasks[id])
            && ToldWell(RanTold(env, w, platform), w'.table.tasks[id])
            && Registered(env, w') && w'.leases == w.leases
  {
    var id, script, from := env.ids(w.drawn), env.scripts[platform], w.talks[platform];
    var row := PT.NewTask(id, contentID, platform);
    var max := row.policy.maxRetries;
    assert row.status.CanTransitionTo(Processing) && max == DefaultRetryPolicy().maxRetries >= 0;
    ToldIsWell(row, script, from, max);
    var n := AttemptCount(script, from, max);
    WithRowHolds(PT.CreateTask(w.table, contentID, platform, id), RowAfter(row, script, from, max, n), id);
    hide EndOf, RowAfter, RecordsAfter, AttemptCount, TalkAfter, PostsAfter, DrawsAfter, ToldWell, SameTask,
         PT.CreateTask, WithRow;
  }

  lemma ToldIsWell(row: PT.Task, script: Script, from: Talk, max: int)
    requires row.status.CanTransitionTo(Processing) && max >= 0
    ensures var row' := RowAfter(row, script, from, max, AttemptCount(script, from, max));
            ToldWell(Told(script, from, max), row') && SameTask(row, row')
  {
    StoredAgreesWithTold(row, script, from, max);
    NeverFallsThrough(script, from, max);
    ToldResult(script, from, max);
    hide EndOf, RowAfter, AttemptCount, Told;
  }

  lemma ToldResult(script: Script, from: Talk, max: int)
    ensures Told(script, from, max).result.Some? ==> Told(script, from, max).error == PT.NoMessage
  {
    hide EndOf, AttemptCount;
  }

  lemma RanIsOneMore(env: Environment, w: World, contentID: string, platform: string)
    requires Registered(env, w) && platform in env.scripts && !PT.TaskExists(w.table, contentID, platform)
    requires env.ids(w.drawn) !in w.table.tasks && w.posts.Keys <= w.table.tasks.Keys
    ensures var w' := Ran(env, w, contentID, platform);
            && OneMore(env, w, w', contentID, platform)
            && ToldWell(RanTold(env, w, platform), w'.table.tasks[env.ids(w.drawn)]) && w'.leases == w.leases
  {
    hide Ran, RanTold, Made, SameTask, PT.TaskExists, PT.NewTask;
    RanPosts(env, w, contentID, platform);
    RanRow(env, w, contentID, platform);
  }

  /** What the claim touches does not matter. */
  lemma OneMoreBeforeClaim(env: Environment, w: World, claimed: World, w': World, contentID: string, platform: string)
    requires OneMore(env, claimed, w', contentID, platform) &&
             claimed == w.(leases := claimed.leases, ticks := claimed.ticks)
    ensures OneMore(env, w, w', contentID, platform)
  {
  }

  lemma ToldAgrees(id: string, platform: string, told: RetryResult, task: PT.Task)
    requires ToldWell(told, task) && task.id == id
    ensures Agrees(Executed(id, platform, told), TaskStatus(task.id, platform, task.status, "", "", task.error))
  {
  }

  lemma SoundParts(env: Environment, w: World)
    requires Sound(env, w)
    ensures Registered(env, w) && Backed(w) && w.posts.Keys <= w.table.tasks.Keys && env.ids(w.drawn) !in w.table.tasks
  {
  }

  lemma NewStep(env: Environment, w: World, contentID: string, platform: string)
    requires Sound(env, w) && platform in env.scripts && !PT.TaskExists(w.table, contentID, platform)
    ensures StepOk(env, w, contentID, platform)
  {
    hide Sound, Backed, Ran, RanTold, Executed, Agrees, Grows, OnlyFor, Granted, PT.LookUpTask, TaskKeyOf, Made,
         ToldWell, PT.Claim;
    SoundParts(env, w);
    var combo := Combo(contentID, platform);
    if !Granted(env, w, combo) { RefusedIsFound(env, w, combo); }
    ClaimBacked(env, w, combo);
    var claimed := Claimed(env, w, combo);
    RanIsOneMore(env, claimed, contentID, platform);
    var w' := Ran(env, claimed, contentID, platform);
    OneMoreBeforeClaim(env, w, claimed, w', contentID, platform);
    OneMoreSound(env, w, w', contentID, platform);
    RanToldSame(env, w, claimed, platform);
    ToldAgrees(env.ids(w.drawn), platform, RanTold(env, w, platform), w'.table.tasks[env.ids(w.drawn)]);
  }

  lemma RanToldSame(env: Environment, w: World, claimed: World, platform: string)
    requires platform in env.scripts && platform in w.talks && claimed.talks == w.talks
    ensures RanTold(env, claimed, platform) == RanTold(env, w, platform)
  {
  }

  lemma PlatformStep(env: Environment, w: World, contentID: string, platform: string)
    requires Sound(env, w)
    ensures StepOk(env, w, contentID, platform)
  {
    if platform !in env.scripts {
    } else if PT.TaskExists(w.table, contentID, platform) {
      ExistingStep(env, w, contentID, platform);
    } else {
      NewStep(env, w, contentID, platform);
    }
    hide Sound, Grows;
  }

  /** What a platform does to the leases: if it is registered and its key is free or expired, the key is held for the
      pair for 24 hours from the clock reading taken then; no other lease changes. */
  lemma {:induction false} LeaseForADay(env: Environment, w: World, contentID: string, platform: string)
    requires Registered(env, w)
    ensures var leases, key := PlatformWorld(env, w, contentID, platform).leases, "task:" + contentID + ":" + platform;
            if platform in env.scripts && (key in w.leases ==> env.readings(w.ticks) >= w.leases[key].expiresAt) then
              leases == w.leases[key := PT.Lease(contentID + ":" + platform,
                env.readings(w.ticks + (if key in w.leases then 1 else 0)) + 86_400_000_000_000)]
            else leases == w.leases
  {
    hide PlatformWorld, Combo, TaskKeyOf, Claimed;
    KeyText(contentID, platform);
    PlatformLeases(env, w, contentID, platform);
    ClaimedLeases(env, w, Combo(contentID, platform));
  }

  lemma KeyText(contentID: string, platform: string)
    ensures Combo(contentID, platform) == contentID + ":" + platform
    ensures TaskKeyOf(Combo(contentID, platform)) == "task:" + contentID + ":" + platform
  {
    assert "task" + ":" + (contentID + ":" + platform) == "task:" + contentID + ":" + platform;
  }

  lemma PlatformLeases(env: Environment, w: World, contentID: string, platform: string)
    requires Registered(env, w)
    ensures PlatformWorld(env, w, contentID, platform).leases
         == if platform in env.scripts then Claimed(env, w, Combo(contentID, platform)).leases else w.leases
  {
    if platform in env.scripts {
      RanRow(env, Claimed(env, w, Combo(contentID, platform)), contentID, platform);
    }
    hide Ran, RanTold, PT.TaskExists, PT.Claim, Combo, TaskKeyOf;
  }

  lemma ClaimedLeases(env: Environment, w: World, combo: string)
    ensures var leases, key := Claimed(env, w, combo).leases, TaskKeyOf(combo);
            if key in w.leases ==> env.readings(w.ticks) >= w.leases[key].expiresAt then
              leases == w.leases[key := PT.Lease(combo,
                env.readings(w.ticks + (if key in w.leases then 1 else 0)) + 86_400_000_000_000)]
            else leases == w.leases
  {
    hide TaskKeyOf;
  }

  /** The key of a pair is held at the clock reading that its claim takes. */
  predicate HeldNow(env: Environment, w: World, key: string) {
    key in w.leases && env.readings(w.ticks) < w.leases[key].expiresAt
  }

  /** What a call does for one platform, from any stores: for one that is not registered, nothing; if its key is held
      or indexes a task, it reports that task, or that there is none to be found, and at most takes the lease; and
      else it makes one task, for the pair, whose stored status or, for exhausted retries, processing it reports. */
  lemma {:induction false} PlatformCases(env: Environment, w: World, contentID: string, platform: string)
    requires Registered(env, w)
    ensures var entry, w' := PlatformEntry(env, w, contentID, platform), PlatformWorld(env, w, contentID, platform);
            var combo, held := contentID + ":" + platform, HeldNow(env, w, "task:" + contentID + ":" + platform);
            if platform !in env.scripts then
              w' == w && entry
                == TaskStatus("", platform, PublishTaskStatus.Failed, "", "", PT.PlatformNotFound(platform))
            else if held || combo in w.table.byCombo then
              && w' == w.(leases := w'.leases, ticks := w'.ticks) && (held ==> w'.leases == w.leases)
              && if combo in w.table.byCombo && w.table.byCombo[combo] in w.table.tasks then
                   var task := w.table.tasks[w.table.byCombo[combo]];
                   entry == TaskStatus(task.id, platform, task.status, "", "", task.error)
                 else
                   entry == TaskStatus("", platform, PublishTaskStatus.Failed, "", "",
                                       if held then PT.LookupFailed else PT.CreateFailed)
            else
              var id := env.ids(w.drawn);
              && entry.taskID == id && entry.platform == platform && id in w'.table.tasks
              && w'.table.byCombo == w.table.byCombo[combo := id]
              && w'.table.tasks == w.table.tasks[id := w'.table.tasks[id]]
              && w'.table.tasks[id].contentID == contentID && w'.table.tasks[id].platform == platform
              && w'.table.tasks[id].status == if entry.status == Dead then Processing else entry.status
  {
    KeyText(contentID, platform);
    if platform in env.scripts {
      var claimed := Claimed(env, w, Combo(contentID, platform));
      RanRow(env, claimed, contentID, platform);
      assert RanTold(env, claimed, platform) == RanTold(env, w, platform);
    }
    hide Ran, RanTold, Combo, TaskKeyOf, SameTask;
  }

  // ----- All platforms -----

  lemma GrowthComposes(t: PT.TaskTable, t': PT.TaskTable, t'': PT.TaskTable)
    requires Grows(t, t') && Grows(t', t'')
    ensures Grows(t, t'')
    ensures forall contentID :: OnlyFor(t, t', contentID) && OnlyFor(t', t'', contentID) ==> OnlyFor(t, t'', contentID)
  {
  }

  /** Every entry tells what the stores hold for its platform after the call. */
  ghost predicate EntriesOk(env: Environment, t: PT.TaskTable, contentID: string, platforms: seq<string>,
                            entries: seq<TaskStatus>) {
    |entries| == |platforms| &&
    forall i :: 0 <= i < |platforms| ==> EntryOk(env, t, contentID, platforms[i], entries[i])
  }

  predicate EntryOk(env: Environment, t: PT.TaskTable, contentID: string, platform: string, entry: TaskStatus) {
    Found(env, t, contentID, platform) && Agrees(entry, Known(env, t, contentID, platform))
  }

  lemma EntriesStay(env: Environment, t: PT.TaskTable, t': PT.TaskTable, contentID: string, platforms: seq<string>,
                    entries: seq<TaskStatus>)
    requires Grows(t, t') && EntriesOk(env, t, contentID, platforms, entries)
    ensures EntriesOk(env, t', contentID, platforms, entries)
  {
    hide Grows, Known, Found, Agrees;
    forall i | 0 <= i < |platforms| ensures EntryOk(env, t', contentID, platforms[i], entries[i]) {
      assert EntryOk(env, t, contentID, platforms[i], entries[i]);
      GrowthKeepsKnown(env, t, t', contentID, platforms[i]);
    }
  }

  lemma {:induction false} AllPlatforms(env: Environment, w: World, contentID: string, platforms: seq<string>)
    requires Sound(env, w)
    ensures var w' := PlatformsWorld(env, w, contentID, platforms);
            && Sound(env, w') && Grows(w.table, w'.table) && OnlyFor(w.table, w'.table, contentID)
            && EntriesOk(env, w'.table, contentID, platforms, PlatformsEntries(env, w, contentID, platforms))
  {
    hide Sound, Grows, OnlyFor, Known, Found, Agrees, PlatformWorld, PlatformEntry;
    SoundParts(env, w);
    if platforms == [] {
      SameGrows(w.table);
    } else {
      var k := |platforms| - 1;
      AllPlatforms(env, w, contentID, platforms[..k]);
      var before := PlatformsWorld(env, w, contentID, platforms[..k]);
      var after := PlatformsWorld(env, w, contentID, platforms);
      PlatformStep(env, before, contentID, platforms[k]);
      EntriesStay(env, before.table, after.table, contentID, platforms[..k],
                  PlatformsEntries(env, w, contentID, platforms[..k]));
      GrowthComposes(w.table, before.table, after.table);
    }
  }

  lemma SameGrows(t: PT.TaskTable)
    ensures Grows(t, t) && forall contentID :: OnlyFor(t, t, contentID)
  {
  }

  // ----- The whole call -----

  lemma {:induction false} EntriesInOrder(env: Environment, w: World, contentID: string, platforms: seq<string>)
    requires Registered(env, w)
    ensures var entries := PlatformsEntries(env, w, contentID, platforms);
            forall i :: 0 <= i < |platforms| ==> entries[i].platform == platforms[i]
  {
    if platforms != [] {
      EntriesInOrder(env, w, contentID, platforms[..|platforms| - 1]);
    }
  }

  /** A content status and the entries it stands for. */
  ghost predicate Summarizes(status: ContentStatus, tasks: seq<TaskStatus>) {
    && (status == Published <==> tasks != [] && forall i :: 0 <= i < |tasks| ==> tasks[i].status == Succeeded)
    && (status == PartiallyPublished <==>
          && (exists i :: 0 <= i < |tasks| && tasks[i].status == Succeeded)
          && (exists i :: 0 <= i < |tasks| && tasks[i].status != Succeeded))
    && (status == ContentStatus.Failed <==> forall i :: 0 <= i < |tasks| ==> tasks[i].status != Succeeded)
  }

  lemma AggregateSummarizes(tasks: seq<TaskStatus>)
    ensures Summarizes(PT.AggregateStatus(Statuses(tasks)), tasks)
  {
    var s := Statuses(tasks);
    assert forall i :: 0 <= i < |tasks| ==> s[i] == tasks[i].status;
    if tasks != [] { assert s[0] == tasks[0].status; }
  }

  /** A content is moved from one status to another exactly if it is stored with the first one and may enter the second
      next; only its status and version change, and of two such moves from one status only one succeeds. */
  lemma TransitionsExactly(t: PT.ContentTable, id: string, from: ContentStatus, to: ContentStatus,
                           again: ContentStatus)
    ensures var t' := Transitioned(t, id, from, to);
            if id in t && t[id].content.status == from && LegalContentPath([from, to]) then
              && CanTransition(t, id, from, to) && !CanTransition(t', id, from, again)
              && t'.Keys == t.Keys && (forall k :: k in t && k != id ==> t'[k] == t[k])
              && t'[id] == PT.ContentRecord(t[id].content.(status := to), t[id].version + 1)
            else !CanTransition(t, id, from, to) && t' == t
  {
    var path := [from, to];
    assert path[0].CanTransitionTo(path[1]) ==> LegalContentPath(path);
    assert LegalContentPath(path) ==> path[1 - 1].CanTransitionTo(path[1]);
  }

  /** A call is answered exactly if the content is there and is ready or partially published, and a declined call
      changes nothing. An answer has one entry per requested platform, in order; its status sums up the entries and is
      what the store holds for the content afterwards, two versions later; no other content changes. */
  lemma {:induction false} PublishResult(env: Environment, w: World, contentID: string, platforms: seq<string>)
    requires Registered(env, w)
    ensures var answer := PublishedAnswer(env, w, contentID, platforms);
            var w' := PublishedWorld(env, w, contentID, platforms);
            if contentID in w.contents && w.contents[contentID].content.status in [Ready, PartiallyPublished] then
              && answer.Answered? && |answer.tasks| == |platforms|
              && (forall i :: 0 <= i < |platforms| ==> answer.tasks[i].platform == platforms[i])
              && Summarizes(answer.status, answer.tasks)
              && var rec := w.contents[contentID];
                 w'.contents == w.contents
                   [contentID := PT.ContentRecord(rec.content.(status := answer.status), rec.version + 2)]
            else
              && answer == Declined(if contentID in w.contents then NotPublishable else ContentNotFound)
              && w' == w
  {
    hide PlatformsWorld, PlatformsEntries, PT.AggregateStatus, Summarizes, Transitioned, CanTransition,
         PT.UpdateContent, Statuses;
    StartsPublishing(w.contents, contentID);
    if Publishable(w.contents, contentID) {
      var locked := Locked(w, contentID);
      var entries := PlatformsEntries(env, locked, contentID, platforms);
      EntriesInOrder(env, locked, contentID, platforms);
      AggregateSummarizes(entries);
      LockedAndReleased(w.contents, contentID, PT.AggregateStatus(Statuses(entries)));
    }
  }

  lemma StartsPublishing(t: PT.ContentTable, id: string)
    ensures Publishable(t, id) <==> id in t && t[id].content.status in [Ready, PartiallyPublished]
  {
  }

  /** The two writes of a call, one after the other. */
  lemma LockedAndReleased(t: PT.ContentTable, id: string, status: ContentStatus)
    requires Publishable(t, id) && status in [Published, PartiallyPublished, ContentStatus.Failed]
    ensures Transitioned(PT.UpdateContent(t, id, Publishing, 0), id, Publishing, status)
         == t[id := PT.ContentRecord(t[id].content.(status := status), t[id].version + 2)]
  {
    var locked := PT.UpdateContent(t, id, Publishing, 0);
    assert locked[id] == PT.ContentRecord(t[id].content.(status := Publishing), t[id].version + 1);
    assert Publishing.CanTransitionTo(status);
  }

  /** The ids of contents hold no colon, which generated ids never do. */
  predicate ColonFreeIDs(w: World) {
    && (forall id :: id in w.contents ==> ColonFree(id))
    && (forall id :: id in w.table.tasks ==> ColonFree(w.table.tasks[id].contentID))
  }

  /** The entry names the stored task of this content and this platform. */
  predicate NamesPair(t: PT.TaskTable, contentID: string, platform: string, entry: TaskStatus) {
    entry.taskID in t.tasks && t.tasks[entry.taskID].contentID == contentID &&
      t.tasks[entry.taskID].platform == platform
  }

  lemma EntryNamesPair(env: Environment, w: World, contentID: string, platform: string, entry: TaskStatus)
    requires Sound(env, w) && ColonFreeIDs(w) && ColonFree(contentID)
    requires platform in env.scripts && EntryOk(env, w.table, contentID, platform, entry)
    ensures NamesPair(w.table, contentID, platform, entry)
  {
    var combo := Combo(contentID, platform);
    IndexedIsFound(w.table, contentID, platform);
    assert PT.IndexEntryOk(w.table, combo);
    var task := w.table.tasks[w.table.byCombo[combo]];
    JoinInjective(task.contentID, task.platform, contentID, platform);
    hide Sound, ColonFreeIDs;
  }

  lemma StillColonFree(w: World, w': World, contentID: string)
    requires ColonFreeIDs(w) && ColonFree(contentID) && Grows(w.table, w'.table) &&
             OnlyFor(w.table, w'.table, contentID)
    requires w'.contents.Keys == w.contents.Keys
    ensures ColonFreeIDs(w')
  {
    hide ColonFree;
  }

  /** Calls keep the stores sound, and every entry of an answer tells what is stored: the entry of a registered
      platform repeats status and error of the task found for its key, except that it says Dead where the store
      kept Processing; so neither look-up error is ever told. If content ids hold no colon, that task is the one
      of the content and the platform asked for, and this stays so. */
  lemma {:induction false} AnswersAgreeWithStores(env: Environment, w: World, contentID: string, platforms: seq<string>)
    requires Sound(env, w)
    ensures var answer := PublishedAnswer(env, w, contentID, platforms);
            var w' := PublishedWorld(env, w, contentID, platforms);
            && Sound(env, w') && Grows(w.table, w'.table)
            && (answer.Answered? ==> EntriesOk(env, w'.table, contentID, platforms, answer.tasks))
            && (ColonFreeIDs(w) ==> ColonFreeIDs(w'))
            && (ColonFreeIDs(w) && answer.Answered? ==>
                  forall i :: 0 <= i < |platforms| && platforms[i] in env.scripts ==>
                    NamesPair(w'.table, contentID, platforms[i], answer.tasks[i]))
  {
    hide PlatformsWorld, PlatformsEntries, PT.AggregateStatus, Grows, OnlyFor, EntryOk, ColonFree, Sound, NamesPair,
         ColonFreeIDs;
    SoundParts(env, w);
    if Publishable(w.contents, contentID) {
      var locked := Locked(w, contentID);
      var w' := PublishedWorld(env, w, contentID, platforms);
      ContentsDoNotMatter(env, w, locked);
      AllPlatforms(env, locked, contentID, platforms);
      ContentsDoNotMatter(env, PlatformsWorld(env, locked, contentID, platforms), w');
      if ColonFreeIDs(w) {
        PublishedContentIsColonFree(w, contentID);
        StillColonFree(w, w', contentID);
        var entries := PlatformsEntries(env, locked, contentID, platforms);
        forall i | 0 <= i < |platforms| && platforms[i] in env.scripts
          ensures NamesPair(w'.table, contentID, platforms[i], entries[i])
        {
          assert EntryOk(env, w'.table, contentID, platforms[i], entries[i]);
          EntryNamesPair(env, w', contentID, platforms[i], entries[i]);
        }
      }
    } else {
      SameGrows(w.table);
    }
  }

  lemma PublishedContentIsColonFree(w: World, contentID: string)
    requires ColonFreeIDs(w) && Publishable(w.contents, contentID)
    ensures ColonFree(contentID)
  {
  }

  /** The key of the pair already indexes the task of another content or platform. */
  predicate KeyTaken(t: PT.TaskTable, contentID: string, platform: string) {
    var combo := Combo(contentID, platform);
    combo in t.byCombo && t.byCombo[combo] in t.tasks &&
    var task := t.tasks[t.byCombo[combo]];
    task.contentID != contentID || task.platform != platform
  }

  lemma SameContentSameKey(contentID: string, p: string, q: string)
    ensures Combo(contentID, p) == Combo(contentID, q) ==> p == q
  {
    assert Combo(contentID, p)[|contentID| + 1..] == p && Combo(contentID, q)[|contentID| + 1..] == q;
  }

  /** A key that finds a task later finds the one it found before, or a new one of its own pair. */
  lemma FoundThroughKey(t: PT.TaskTable, t': PT.TaskTable, contentID: string, platform: string)
    requires PT.Indexed(t) && PT.Indexed(t') && Grows(t, t') && OnlyFor(t, t', contentID) &&
             PT.TaskExists(t', contentID, platform)
    ensures var id := t'.byCombo[Combo(contentID, platform)];
            id in t'.tasks &&
            (t'.tasks[id].contentID == contentID && t'.tasks[id].platform == platform <==>
             !KeyTaken(t, contentID, platform))
  {
    var combo := Combo(contentID, platform);
    var id := t'.byCombo[combo];
    assert PT.IndexEntryOk(t', combo);
    if combo in t.byCombo {
      assert PT.IndexEntryOk(t, combo);
    } else {
      assert id in t.tasks ==> PT.TaskReached(t, id);
      SameContentSameKey(contentID, t'.tasks[id].platform, platform);
    }
    hide PT.Indexed, Combo;
  }

  lemma EntryThroughKey(env: Environment, w: World, contentID: string, platform: string, entry: TaskStatus)
    requires Sound(env, w) && platform in env.scripts && EntryOk(env, w.table, contentID, platform, entry)
    ensures PT.TaskExists(w.table, contentID, platform) && entry.taskID == w.table.byCombo[Combo(contentID, platform)]
  {
    IndexedIsFound(w.table, contentID, platform);
    hide Sound, Combo;
  }

  lemma SoundIsIndexed(env: Environment, w: World)
    requires Sound(env, w)
    ensures PT.Indexed(w.table)
  {
  }

  /** Exactly, for any content ids: the entry of a registered platform names the task of this content and platform if
      and only if the pair's key did not index the task of another pair before the call. */
  lemma {:induction false} NamesPairExactly(env: Environment, w: World, contentID: string, platforms: seq<string>,
                                            i: nat)
    requires Sound(env, w) && Publishable(w.contents, contentID) && i < |platforms| && platforms[i] in env.scripts
    ensures Registered(env, w) && PublishedAnswer(env, w, contentID, platforms).Answered?
    ensures NamesPair(PublishedWorld(env, w, contentID, platforms).table, contentID, platforms[i],
                      PublishedAnswer(env, w, contentID, platforms).tasks[i])
       <==> !KeyTaken(w.table, contentID, platforms[i])
  {
    SoundParts(env, w);
    hide PlatformsWorld, PlatformsEntries, PT.AggregateStatus, Grows, OnlyFor, EntryOk, Sound, KeyTaken, ColonFreeIDs,
         PT.Indexed, Combo, PT.TaskExists;
    var locked, w' := Locked(w, contentID), PublishedWorld(env, w, contentID, platforms);
    ContentsDoNotMatter(env, w, locked);
    AllPlatforms(env, locked, contentID, platforms);
    ContentsDoNotMatter(env, PlatformsWorld(env, locked, contentID, platforms), w');
    var entries := PlatformsEntries(env, locked, contentID, platforms);
    assert EntryOk(env, w'.table, contentID, platforms[i], entries[i]);
    EntryThroughKey(env, w', contentID, platforms[i], entries[i]);
    SoundIsIndexed(env, w);
    SoundIsIndexed(env, w');
    FoundThroughKey(w.table, w'.table, contentID, platforms[i]);
  }

  /** For one: content "a:b" on platform "c" finds the task of content "a" on platform "b:c". */
  lemma {:induction false} ColonNamesAnotherPair(env: Environment, w: World, id: string)
    requires Sound(env, w) && "c" in env.scripts && id in w.table.tasks
    requires w.table.tasks[id].contentID == "a" && w.table.tasks[id].platform == "b:c"
    ensures KeyTaken(w.table, "a:b", "c") && PlatformEntry(env, w, "a:b", "c").taskID == id
    ensures !NamesPair(w.table, "a:b", "c", PlatformEntry(env, w, "a:b", "c"))
  {
    assert Combo("a:b", "c") == "a:b:c" == Combo("a", "b:c");
    assert PT.TaskReached(w.table, id);
    IndexedIsFound(w.table, "a:b", "c");
    assert "a"[0] == "a:b"[0] && |"a"| != |"a:b"|;
    hide PT.Indexed, Combo, Granted;
  }

  lemma ContentsDoNotMatter(env: Environment, w: World, w': World)
    requires Sound(env, w) && w' == w.(contents := w'.contents)
    ensures Sound(env, w')
  {
    forall id | id in w'.table.tasks ensures Resting(w', id) { assert Resting(w, id); }
  }

  // ----- Calling again -----

  /** Where every task exists, a call leaves all but leases and clock alone and reports what is stored. */
  lemma {:induction false} NothingNew(env: Environment, w: World, contentID: string, platforms: seq<string>)
    requires Registered(env, w) && forall i :: 0 <= i < |platforms| ==> Found(env, w.table, contentID, platforms[i])
    ensures var w' := PlatformsWorld(env, w, contentID, platforms);
            && w' == w.(leases := w'.leases, ticks := w'.ticks)
            && forall i :: 0 <= i < |platforms| ==>
                 PlatformsEntries(env, w, contentID, platforms)[i] == Known(env, w.table, contentID, platforms[i])
  {
    hide Found, PlatformWorld, PlatformEntry, Known;
    if platforms != [] {
      var k := |platforms| - 1;
      NothingNew(env, w, contentID, platforms[..k]);
      NothingNewStep(env, PlatformsWorld(env, w, contentID, platforms[..k]), contentID, platforms[k]);
    }
  }

  lemma NothingNewStep(env: Environment, w: World, contentID: string, platform: string)
    requires Registered(env, w) && Found(env, w.table, contentID, platform)
    ensures var w' := PlatformWorld(env, w, contentID, platform);
            && w' == w.(leases := w'.leases, ticks := w'.ticks)
            && PlatformEntry(env, w, contentID, platform) == Known(env, w.table, contentID, platform)
  {
    hide Granted, PT.Claim, Combo;
  }

  /** The second answer about a platform whose first answer was e. */
  function Again(e: TaskStatus): (PublishTaskStatus, PT.Message) {
    if e.status == Dead then (Processing, PT.NoMessage) else (e.status, e.error)
  }

  /** Publishing the same platforms of a content again, with the same platforms registered, runs nothing:
      whatever happened to the leases, the clock and the contents in between, and whatever the adapters would
      answer now, no adapter is called and no task, attempt or post changes. The answer has the same status
      and tasks as the first one, except that a dead task is now told as the processing one that is stored. A
      failed platform is not retried either. */
  lemma {:induction false} Republish(env: Environment, w: World, contentID: string, platforms: seq<string>,
                                     env': Environment, later: World)
    requires Sound(env, w) && Publishable(w.contents, contentID)
    requires env'.scripts.Keys == env.scripts.Keys
    requires var w1 := PublishedWorld(env, w, contentID, platforms);
             later == w1.(leases := later.leases, ticks := later.ticks, contents := later.contents)
    requires Publishable(later.contents, contentID)
    ensures Registered(env', later)
    ensures var first := PublishedAnswer(env, w, contentID, platforms);
            var second := PublishedAnswer(env', later, contentID, platforms);
            var w2 := PublishedWorld(env', later, contentID, platforms);
            && w2 == later.(leases := w2.leases, ticks := w2.ticks, contents := w2.contents)
            && first.Answered? && second.Answered?
            && second.status == first.status && w2.contents[contentID].content.status == first.status
            && |second.tasks| == |first.tasks|
            && forall i :: 0 <= i < |first.tasks| ==>
                 && second.tasks[i].taskID == first.tasks[i].taskID
                 && (second.tasks[i].status, second.tasks[i].error) == Again(first.tasks[i])
  {
    hide Sound, PlatformsWorld, PlatformsEntries, PT.AggregateStatus, Grows, Summarizes, Known, Found, EntryOk,
         NamesPair, ColonFreeIDs, PT.UpdateContent, Transitioned;
    SoundParts(env, w);
    AnswersAgreeWithStores(env, w, contentID, platforms);
    PublishResult(env, w, contentID, platforms);
    PublishResult(env', later, contentID, platforms);
    var first := PublishedAnswer(env, w, contentID, platforms);
    var second := PublishedAnswer(env', later, contentID, platforms);
    SameRegistry(env, env', later.table, contentID, platforms, first.tasks);
    NothingNew(env', Locked(later, contentID), contentID, platforms);
    SameSummary(first.tasks, second.tasks);
  }

  lemma SameRegistry(env: Environment, env': Environment, t: PT.TaskTable, contentID: string, platforms: seq<string>,
                     entries: seq<TaskStatus>)
    requires env'.scripts.Keys == env.scripts.Keys && EntriesOk(env, t, contentID, platforms, entries)
    ensures forall i :: 0 <= i < |platforms| ==>
              && Found(env', t, contentID, platforms[i])
              && Agrees(entries[i], Known(env', t, contentID, platforms[i]))
  {
    forall i | 0 <= i < |platforms|
      ensures Found(env', t, contentID, platforms[i]) && Agrees(entries[i], Known(env', t, contentID, platforms[i]))
    {
      assert EntryOk(env, t, contentID, platforms[i], entries[i]);
    }
  }

  lemma SameSummary(first: seq<TaskStatus>, second: seq<TaskStatus>)
    requires |first| == |second|
    requires forall i :: 0 <= i < |first| ==> (first[i].status == Succeeded <==> second[i].status == Succeeded)
    ensures PT.AggregateStatus(Statuses(first)) == PT.AggregateStatus(Statuses(second))
  {
    AggregateSummarizes(first);
    AggregateSummarizes(second);
    hide PT.AggregateStatus;
  }
}
