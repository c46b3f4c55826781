/** Where the post ids and addresses in the answer of a Publish call come from. */
module PostEntries {
  import opened Contracts
  import opened Keys
  import opened Policy
  import opened PublishStores
  import opened Retry
  import opened PublishRun
  import opened PublishTheorems
  import PT = PublishTables

  /** The adapter accepted with this result in one of its Publish calls from number `first` up to `end`. */
  ghost predicate AcceptedBetween(script: Script, first: nat, end: nat, result: PT.PublishResult) {
    exists k: nat :: first <= k < end && script.publish(k) == Accepted(result)
  }

  /** The entry carries the post stored for its task, with which the adapter accepted between the two worlds. */
  ghost predicate Carries(env: Environment, w: World, w': World, platform: string, entry: TaskStatus) {
    && platform in env.scripts && platform in w.talks && platform in w'.talks && entry.taskID in w'.posts
    && var result := w'.posts[entry.taskID].result;
       && entry.postID == result.postID && entry.url == result.url
       && AcceptedBetween(env.scripts[platform], w.talks[platform].published, w'.talks[platform].published, result)
  }

  predicate Bare(entry: TaskStatus) {
    entry.postID == "" && entry.url == ""
  }

  /** Posts are never lost or rewritten, and calls to adapters only add up. */
  ghost predicate Adds(w: World, w': World) {
    && (forall t :: t in w.posts ==> t in w'.posts && w'.posts[t] == w.posts[t])
    && (forall p :: p in w.talks ==> p in w'.talks && w.talks[p].published <= w'.talks[p].published)
  }

  /** A call that makes a new post of its task got it from the adapter. */
  lemma AcceptedLast(script: Script, from: Talk, max: nat)
    ensures var n, told := AttemptCount(script, from, max), Told(script, from, max);
            && from.published <= TalkAfter(script, from, n).published
            && (told.status == Succeeded <==> told.result.Some?)
            && (told.result.Some? ==>
                  && EndOf(script, from, n - 1) == Posted(told.result.value)
                  && AcceptedBetween(script, from.published, TalkAfter(script, from, n).published, told.result.value))
  {
    var n := AttemptCount(script, from, max);
    NeverFallsThrough(script, from, max);
    if Told(script, from, max).result.Some? {
      assert script.publish(from.published + n - 1) == Accepted(Told(script, from, max).result.value);
    }
    hide AttemptCount, Attempts;
  }

  /** The execution of a new task, and its entry. */
  lemma RanCarries(env: Environment, w: World, contentID: string, platform: string)
    requires Registered(env, w) && platform in env.scripts && env.ids(w.drawn) !in w.posts
    ensures var w' := Ran(env, w, contentID, platform);
            var entry := Executed(env.ids(w.drawn), platform, RanTold(env, w, platform));
            Adds(w, w') && if entry.status == Succeeded then Carries(env, w, w', platform, entry) else Bare(entry)
  {
    AcceptedLast(env.scripts[platform], w.talks[platform], DefaultRetryPolicy().maxRetries);
    hide EndOf, RowAfter, RecordsAfter, TalkAfter, AttemptCount, WithRow, Verdict, AcceptedBetween, PT.CreateTask;
  }

  /** One platform: only the execution of a new task gives an entry its post. */
  lemma PlatformCarries(env: Environment, w: World, contentID: string, platform: string)
    requires Sound(env, w)
    ensures Registered(env, w)
    ensures var w' := PlatformWorld(env, w, contentID, platform);
            var entry := PlatformEntry(env, w, contentID, platform);
            && Adds(w, w')
            && if platform in env.scripts && !PT.TaskExists(w.table, contentID, platform) then
                 && entry.taskID == env.ids(w.drawn)
                 && if entry.status == Succeeded then Carries(env, w, w', platform, entry) else Bare(entry)
               else Bare(entry)
  {
    SoundParts(env, w);
    hide Sound, Backed, Ran, RanTold, Carries, PT.Claim, TaskKeyOf, Verdict;
    var combo := Combo(contentID, platform);
    if platform in env.scripts && !PT.TaskExists(w.table, contentID, platform) {
      if !Granted(env, w, combo) { RefusedIsFound(env, w, combo); }
      var claimed := Claimed(env, w, combo);
      RanCarries(env, claimed, contentID, platform);
      RanToldSame(env, w, claimed, platform);
      CarriesBeforeClaim(env, w, claimed, Ran(env, claimed, contentID, platform), platform,
                         Executed(env.ids(w.drawn), platform, RanTold(env, w, platform)));
      ExecutedID(env.ids(w.drawn), platform, RanTold(env, w, platform));
    }
  }

  lemma ExecutedID(id: string, platform: string, r: RetryResult)
    ensures Executed(id, platform, r).taskID == id
  {
  }

  lemma CarriesBeforeClaim(env: Environment, w: World, claimed: World, w': World, platform: string, entry: TaskStatus)
    requires claimed == w.(leases := claimed.leases, ticks := claimed.ticks)
    ensures Carries(env, claimed, w', platform, entry) ==> Carries(env, w, w', platform, entry)
    ensures Adds(claimed, w') ==> Adds(w, w')
  {
  }

  /** A carried post stays carried, for calls that started earlier or looked later. */
  lemma CarriesLonger(env: Environment, w0: World, w: World, w': World, w'': World, platform: string, entry: TaskStatus)
    requires Adds(w0, w) && Adds(w', w'') && Carries(env, w, w', platform, entry) && platform in w0.talks
    ensures Carries(env, w0, w'', platform, entry)
  {
    var result := w'.posts[entry.taskID].result;
    var k: nat :| w.talks[platform].published <= k < w'.talks[platform].published &&
        env.scripts[platform].publish(k) == Accepted(result);
    assert w0.talks[platform].published <= k < w''.talks[platform].published;
  }

  lemma AddsMore(w: World, w': World, w'': World)
    requires Adds(w, w') && Adds(w', w'')
    ensures Adds(w, w'')
  {
  }

  /** The keys that a call adds to the index are those of its registered platforms so far. */
  ghost predicate KeysOf(env: Environment, w: World, w': World, contentID: string, platforms: seq<string>) {
    forall p :: p in env.scripts ==>
      (PT.TaskExists(w'.table, contentID, p) <==> PT.TaskExists(w.table, contentID, p) || p in platforms)
  }

  lemma KeysOfOneMore(env: Environment, w: World, w': World, w'': World, contentID: string, platforms: seq<string>,
                      platform: string)
    requires Sound(env, w') && KeysOf(env, w, w', contentID, platforms)
    requires w'' == PlatformWorld(env, w', contentID, platform)
    ensures KeysOf(env, w, w'', contentID, platforms + [platform])
  {
    PlatformStep(env, w', contentID, platform);
    SoundParts(env, w');
    forall p | p in env.scripts
      ensures PT.TaskExists(w''.table, contentID, p) <==> PT.TaskExists(w'.table, contentID, p) || p == platform
    {
      PlatformKeys(env, w', contentID, platform, p);
    }
    hide Sound, PlatformWorld, PT.TaskExists;
  }

  lemma PlatformKeys(env: Environment, w: World, contentID: string, platform: string, p: string)
    requires Sound(env, w) && p in env.scripts && Registered(env, w)
    ensures PT.TaskExists(PlatformWorld(env, w, contentID, platform).table, contentID, p)
       <==> PT.TaskExists(w.table, contentID, p) || p == platform
  {
    SameContentSameKey(contentID, p, platform);
    PlatformStep(env, w, contentID, platform);
    SoundParts(env, w);
    if platform in env.scripts {
      if !Granted(env, w, Combo(contentID, platform)) { RefusedIsFound(env, w, Combo(contentID, platform)); }
      RanRow(env, Claimed(env, w, Combo(contentID, platform)), contentID, platform);
    }
    hide Sound, Ran, RanTold, PT.Claim, TaskKeyOf, Combo, Granted, Backed, StepOk;
  }

  // ----- The whole call -----

  /** The first mention of a registered platform without a task makes one, and its entry carries the post. */
  ghost predicate EntryCarries(env: Environment, w: World, w': World, contentID: string, platforms: seq<string>, i: nat,
                               entry: TaskStatus)
    requires i < |platforms|
  {
    if Makes(env, w, contentID, platforms, i) then
      && entry.taskID !in w.table.tasks
      && if entry.status == Succeeded then Carries(env, w, w', platforms[i], entry) else Bare(entry)
    else Bare(entry)
  }

  predicate Makes(env: Environment, w: World, contentID: string, platforms: seq<string>, i: nat)
    requires i < |platforms|
  {
    platforms[i] in env.scripts && !PT.TaskExists(w.table, contentID, platforms[i]) && platforms[i] !in platforms[..i]
  }

  lemma EntryCarriesLonger(env: Environment, w: World, w': World, w'': World, contentID: string, platforms: seq<string>,
                           i: nat, more: string, entry: TaskStatus)
    requires i < |platforms| && EntryCarries(env, w, w', contentID, platforms, i, entry) && Adds(w', w'') && Adds(w, w)
    ensures EntryCarries(env, w, w'', contentID, platforms + [more], i, entry)
  {
    assert (platforms + [more])[..i] == platforms[..i] && (platforms + [more])[i] == platforms[i];
    if Makes(env, w, contentID, platforms, i) && entry.status == Succeeded {
      CarriesLonger(env, w, w, w', w'', platforms[i], entry);
    }
    hide Carries, Adds;
  }

  lemma LastCarries(env: Environment, w: World, before: World, contentID: string, platforms: seq<string>,
                    platform: string)
    requires Sound(env, before) && Grows(w.table, before.table) && Adds(w, before) && Registered(env, w)
    requires KeysOf(env, w, before, contentID, platforms)
    ensures var after := PlatformWorld(env, before, contentID, platform);
            && Adds(before, after)
            && EntryCarries(env, w, after, contentID, platforms + [platform], |platforms|,
                            PlatformEntry(env, before, contentID, platform))
  {
    hide Sound, Carries, PlatformWorld, PlatformEntry, PT.TaskExists;
    assert (platforms + [platform])[..|platforms|] == platforms;
    PlatformCarries(env, before, contentID, platform);
    SoundParts(env, before);
    var after, entry := PlatformWorld(env, before, contentID, platform),
        PlatformEntry(env, before, contentID, platform);
    if platform in env.scripts && !PT.TaskExists(before.table, contentID, platform) && entry.status == Succeeded {
      NothingLost(after);
      CarriesLonger(env, w, before, after, after, platform, entry);
    }
  }

  lemma NothingLost(w: World)
    ensures Adds(w, w)
  {
  }

  lemma {:induction false} AllCarry(env: Environment, w: World, contentID: string, platforms: seq<string>)
    requires Sound(env, w)
    ensures Registered(env, w)
    ensures var w' := PlatformsWorld(env, w, contentID, platforms);
            && Adds(w, w') && KeysOf(env, w, w', contentID, platforms)
            && forall i :: 0 <= i < |platforms| ==>
                 EntryCarries(env, w, w', contentID, platforms, i, PlatformsEntries(env, w, contentID, platforms)[i])
  {
    hide Sound, Adds, EntryCarries, KeysOf, Grows, PlatformWorld, PlatformEntry, OnlyFor, EntriesOk;
    SoundParts(env, w);
    NothingLost(w);
    if platforms == [] {
      NoKeys(env, w, contentID);
    } else {
      var k := |platforms| - 1;
      var front := platforms[..k];
      var before, entries := PlatformsWorld(env, w, contentID, front), PlatformsEntries(env, w, contentID, front);
      AllCarry(env, w, contentID, front);
      AllPlatforms(env, w, contentID, front);
      assert platforms == front + [platforms[k]];
      LastCarries(env, w, before, contentID, front, platforms[k]);
      KeysOfOneMore(env, w, before, PlatformWorld(env, before, contentID, platforms[k]), contentID, front,
                    platforms[k]);
      AddsMore(w, before, PlatformWorld(env, before, contentID, platforms[k]));
      forall i | 0 <= i < k
        ensures EntryCarries(env, w, PlatformsWorld(env, w, contentID, platforms), contentID, platforms, i, entries[i])
      {
        EntryCarriesLonger(env, w, before, PlatformWorld(env, before, contentID, platforms[k]), contentID, front, i,
                           platforms[k], entries[i]);
      }
    }
  }

  lemma NoKeys(env: Environment, w: World, contentID: string)
    ensures KeysOf(env, w, w, contentID, [])
  {
  }

  /** An entry for a task that was not there before, and succeeded, is of a platform that makes one. */
  lemma NewSucceededMakes(env: Environment, w: World, w': World, contentID: string, platform: string, entry: TaskStatus)
    requires Sound(env, w) && Sound(env, w') && Grows(w.table, w'.table)
    requires PublishTheorems.EntryOk(env, w'.table, contentID, platform, entry)
    requires entry.status == Succeeded && entry.taskID !in w.table.tasks
    ensures platform in env.scripts && !PT.TaskExists(w.table, contentID, platform)
  {
    SoundIsIndexed(env, w);
    SoundIsIndexed(env, w');
    hide Sound, Combo, PT.Indexed;
    if platform in env.scripts && PT.TaskExists(w.table, contentID, platform) {
      IndexedIsFound(w.table, contentID, platform);
      IndexedIsFound(w'.table, contentID, platform);
    }
  }

  /** The post id and address of an entry are those of the post that is stored for its task, and the registered
      adapter accepted with them in one of the calls made meanwhile: exactly for the first entry of a platform, if the
      task succeeded and was not there before. All other entries leave both empty. */
  lemma {:induction false} EntriesCarryPosts(env: Environment, w: World, contentID: string, platforms: seq<string>,
                                             i: nat)
    requires Sound(env, w) && contentID in w.contents && i < |platforms|
    requires w.contents[contentID].content.status in [Ready, PartiallyPublished]
    ensures Registered(env, w) && PublishedAnswer(env, w, contentID, platforms).Answered?
    ensures var entry := PublishedAnswer(env, w, contentID, platforms).tasks[i];
            if entry.status == Succeeded && entry.taskID !in w.table.tasks && platforms[i] !in platforms[..i] then
              Carries(env, w, PublishedWorld(env, w, contentID, platforms), platforms[i], entry)
            else entry.postID == "" && entry.url == ""
  {
    hide Sound, Adds, Carries, KeysOf, Grows, OnlyFor, PlatformsWorld, PlatformsEntries, PT.AggregateStatus, EntryOk,
         PT.TaskExists;
    SoundParts(env, w);
    StartsPublishing(w.contents, contentID);
    var locked := Locked(w, contentID);
    ContentsDoNotMatter(env, w, locked);
    AllCarry(env, locked, contentID, platforms);
    AllPlatforms(env, locked, contentID, platforms);
    var done, entry := PlatformsWorld(env, locked, contentID, platforms),
        PlatformsEntries(env, locked, contentID, platforms)[i];
    assert EntryCarries(env, locked, done, contentID, platforms, i, entry);
    assert PublishTheorems.EntryOk(env, done.table, contentID, platforms[i], entry);
    if entry.status == Succeeded && entry.taskID !in w.table.tasks && platforms[i] !in platforms[..i] {
      NewSucceededMakes(env, locked, done, contentID, platforms[i], entry);
      CarriesOnBoth(env, w, locked, done, PublishedWorld(env, w, contentID, platforms), platforms[i], entry);
    }
  }

  lemma CarriesOnBoth(env: Environment, w: World, locked: World, done: World, w': World, platform: string,
                      entry: TaskStatus)
    requires locked == w.(contents := locked.contents) && w' == done.(contents := w'.contents)
    ensures Carries(env, locked, done, platform, entry) ==> Carries(env, w, w', platform, entry)
  {
  }
}
