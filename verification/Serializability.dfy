/** Publish calls are serializable: in every run of module Protocol, however the calls interleave, the contents, tasks,
    attempts and posts are those of module PublishRun's whole calls, one after the other in the order of their final
    writes, in one environment; and each of these calls reports what its big-step call answers. */
module Serializability {
  import opened Contracts
  import opened Keys
  import opened PublishTables
  import opened Protocol
  import opened ProtocolLocks
  import ProtocolKeys
  import opened ProtocolLedger
  import opened ProtocolSafety
  import opened ProtocolReports
  import opened ProtocolStories
  import opened SerialWorlds
  import BigStep = PublishRun
  import Calls = CallRefinement
  import T = ProtocolTheorems

  // ----- The platforms of one call -----

  /** The tasks that a call made, in the order of their entries. */
  function Runs(reports: seq<Report>): seq<string> {
    if reports == [] then []
    else
      var before, r := Runs(reports[..|reports| - 1]), reports[|reports| - 1];
      if r.origin.Executed? then before + [r.taskID] else before
  }

  /** These are the tasks of the calls that have returned. */
  ghost predicate Committed(s: State, ts: seq<string>) {
    && (forall t :: t in ts ==> t in s.work.table.tasks)
    && (forall t :: t in s.work.table.tasks ==> (t in ts <==> Author(s, t).at.Returned?))
  }

  function Author(s: State, t: string): Call {
    if t in s.work.createdBy && s.work.createdBy[t] in s.calls then s.calls[s.work.createdBy[t]]
    else Call("", [], [], Returned(false))
  }

  ghost predicate Good(s: State) {
    T.Inv(s) && StoriesOk(s)
  }

  /** What an entry says of the stores. */
  lemma EntryMeans(s: State, pid: nat, i: nat)
    requires Good(s) && pid in s.calls && i < |s.calls[pid].reports|
    ensures var c := s.calls[pid];
            && i < |c.platforms| && EntryOk(s, pid, i) && !c.reports[i].origin.Unexplained?
            && var r, p := c.reports[i], c.platforms[i];
               if r.origin.NotRegistered? then
                 p !in s.registered && r == Report("", PublishTaskStatus.Failed, PlatformNotFound(p), NotRegistered)
               else
                 && r.taskID in s.work.table.tasks && AuthorOk(s, r.taskID) && Story(s.work, r.taskID)
                 && s.work.table.tasks[r.taskID].contentID == c.contentID && s.work.table.tasks[r.taskID].platform == p
                 && Agrees(s.work.table.tasks[r.taskID], r)
                 && (r.origin.Existing? ==> r.status == s.work.table.tasks[r.taskID].status)
  {
    var c := s.calls[pid];
    assert CallReportsOk(s, c) && CallStoryOk(s, pid);
    assert ReportOk(s, c, i) && EntryOk(s, pid, i);
    if !c.reports[i].origin.NotRegistered? { assert TaskStoryOk(s, c.reports[i].taskID); }
    hide LocksOk, ProtocolKeys.KeysOk, TasksOk, ReportsOk, StoriesOk, Story, RunStory, Agrees, AuthorOk;
  }

  /** The author of a task, unless it has returned, is the one call that owns the content. */
  lemma AuthorOwns(s: State, pid: nat, t: string)
    requires Good(s) && pid in s.calls && Owns(s.calls[pid]) && t in s.work.table.tasks && AuthorOk(s, t)
    requires s.work.table.tasks[t].contentID == s.calls[pid].contentID
    ensures Author(s, t).at.Returned? || s.work.createdBy[t] == pid
  {
    var q := s.work.createdBy[t];
    if Owns(s.calls[q]) { assert HoldsLock(s, q) && HoldsLock(s, pid); }
    hide TasksOk, ReportsOk, StoriesOk, ProtocolKeys.KeysOk;
  }

  lemma {:induction false} RunsGrow(reports: seq<Report>, i: nat, k: nat, t: string)
    requires i <= k <= |reports| && t in Runs(reports[..i])
    ensures t in Runs(reports[..k])
    decreases k
  {
    if i < k {
      RunsGrow(reports, i, k - 1, t);
      assert reports[..k][..k - 1] == reports[..k - 1];
    }
  }

  /** A task that an entry names has been made by then. */
  lemma {:induction false} NamedIsMade(s: State, pid: nat, ts: seq<string>, i: nat)
    requires Good(s) && Committed(s, ts) && pid in s.calls && Owns(s.calls[pid]) && i < |s.calls[pid].reports|
    requires !s.calls[pid].reports[i].origin.NotRegistered?
    ensures s.calls[pid].reports[i].taskID in ts + Runs(s.calls[pid].reports[..i + 1])
    decreases i
  {
    hide Good, Story, Agrees, AuthorOk, EndIn;
    EntryMeans(s, pid, i);
    var c := s.calls[pid];
    var r := c.reports[i];
    assert c.reports[..i + 1][..i] == c.reports[..i];
    if r.origin.Existing? {
      AuthorOwns(s, pid, r.taskID);
      if s.work.createdBy[r.taskID] == pid {
        var j: nat :| j < i && c.platforms[j] == c.platforms[i];
        EarlierMention(s, pid, j, i);
        NamedIsMade(s, pid, ts, j);
        if r.taskID in Runs(c.reports[..j + 1]) { RunsGrow(c.reports, j + 1, i + 1, r.taskID); }
      }
    }
  }

  /** Two entries for one platform name one task. */
  lemma EarlierMention(s: State, pid: nat, j: nat, i: nat)
    requires Good(s) && pid in s.calls && j < i < |s.calls[pid].reports| && i < |s.calls[pid].platforms|
    requires s.calls[pid].platforms[j] == s.calls[pid].platforms[i]
    requires !s.calls[pid].reports[i].origin.NotRegistered?
    ensures !s.calls[pid].reports[j].origin.NotRegistered?
    ensures s.calls[pid].reports[j].taskID == s.calls[pid].reports[i].taskID
  {
    EntryMeans(s, pid, i);
    EntryMeans(s, pid, j);
    assert WorkOk(s.work);
    if !s.calls[pid].reports[j].origin.NotRegistered? {
      OwnKey(s.work, s.calls[pid].reports[i].taskID);
      OwnKey(s.work, s.calls[pid].reports[j].taskID);
    }
    hide Good, WorkOk, Story, Agrees, EntryOk, Combo;
  }

  lemma {:induction false} RunsAvoid(reports: seq<Report>, t: string)
    requires forall j: nat :: j < |reports| && reports[j].origin.Executed? ==> reports[j].taskID != t
    ensures t !in Runs(reports)
  {
    if reports != [] { RunsAvoid(reports[..|reports| - 1], t); }
  }

  /** Two executed entries name two tasks. */
  lemma ExecutedDiffer(s: State, pid: nat, j: nat, i: nat)
    requires Good(s) && pid in s.calls && j < i < |s.calls[pid].reports|
    requires s.calls[pid].reports[j].origin.Executed? && s.calls[pid].reports[i].origin.Executed?
    ensures s.calls[pid].reports[j].taskID != s.calls[pid].reports[i].taskID
  {
    EntryMeans(s, pid, j);
    EntryMeans(s, pid, i);
    assert s.calls[pid].platforms[..i][j] == s.calls[pid].platforms[j];
    hide Good, Story, Agrees, AuthorOk, EndIn;
  }

  /** An executed task is none of those before it. */
  lemma ExecutedIsNew(s: State, pid: nat, ts: seq<string>, i: nat)
    requires Good(s) && Committed(s, ts) && pid in s.calls && Owns(s.calls[pid]) && i < |s.calls[pid].reports|
    requires s.calls[pid].reports[i].origin.Executed?
    ensures s.calls[pid].reports[i].taskID !in ts + Runs(s.calls[pid].reports[..i])
  {
    hide Good, Story, Agrees, AuthorOk, EndIn;
    EntryMeans(s, pid, i);
    var reports := s.calls[pid].reports;
    forall j: nat | j < i && reports[..i][j].origin.Executed? ensures reports[..i][j].taskID != reports[i].taskID {
      ExecutedDiffer(s, pid, j, i);
    }
    RunsAvoid(reports[..i], reports[i].taskID);
  }

  /** One entry of a call, against the world that holds the tasks before it. */
  lemma EntryHolds(env: BigStep.Environment, s: State, pid: nat, ts: seq<string>, i: nat, world: BigStep.World)
    requires Good(s) && Committed(s, ts) && pid in s.calls && Owns(s.calls[pid]) && i < |s.calls[pid].reports|
    requires env.scripts.Keys == s.registered && BigStep.Registered(env, world)
    requires Holds(s.work, ts + Runs(s.calls[pid].reports[..i]), world)
    requires Feeds(env, s.work, ts + Runs(s.calls[pid].reports[..i + 1]))
    ensures var c := s.calls[pid];
            && i < |c.platforms|
            && Holds(s.work, ts + Runs(c.reports[..i + 1]),
                     BigStep.PlatformWorld(env, world, c.contentID, c.platforms[i]))
            && Calls.Tells(c.reports[i], BigStep.PlatformEntry(env, world, c.contentID, c.platforms[i]))
  {
    hide Good, Holds, Story, EndIn, Feeds, FeedsTask, AuthorOk, Committed, WorkOk, BigStep.PlatformWorld,
         BigStep.PlatformEntry;
    EntryMeans(s, pid, i);
    GoodWork(s);
    var c := s.calls[pid];
    var r, before := c.reports[i], ts + Runs(c.reports[..i]);
    assert c.reports[..i + 1][..i] == c.reports[..i];
    if r.origin.NotRegistered? {
      NoPlatform(env, world, c.contentID, c.platforms[i]);
    } else if r.origin.Executed? {
      ExecutedIsNew(s, pid, ts, i);
      assert ts + Runs(c.reports[..i + 1]) == before + [r.taskID];
      LastFed(env, s.work, before, r.taskID);
      NewPlatform(env, s.work, before, world, r.taskID);
      ExecutedTells(s.work, r.taskID, c.platforms[i]);
    } else {
      NamedIsMade(s, pid, ts, i);
      InScripts(env, s, r.taskID);
      OldPlatform(env, s.work, before, world, r.taskID);
    }
  }

  lemma GoodWork(s: State)
    requires Good(s)
    ensures WorkOk(s.work)
  {
    hide WorkOk;
  }

  lemma NoPlatform(env: BigStep.Environment, world: BigStep.World, contentID: string, platform: string)
    requires BigStep.Registered(env, world) && platform !in env.scripts
    ensures BigStep.PlatformWorld(env, world, contentID, platform) == world
    ensures BigStep.PlatformEntry(env, world, contentID, platform)
         == BigStep.Unexplained(platform, PlatformNotFound(platform))
  {
  }

  lemma ExecutedTells(w: Work, t: string, platform: string)
    requires Story(w, t)
    ensures var entry := BigStep.Executed(t, platform, VerdictIn(w, t));
            (entry.taskID, entry.status, entry.error) == (t, VerdictIn(w, t).status, VerdictIn(w, t).error)
  {
    hide EndIn, RecordOk;
  }

  lemma InScripts(env: BigStep.Environment, s: State, t: string)
    requires env.scripts.Keys == s.registered && t in s.work.table.tasks && AuthorOk(s, t)
    ensures PlatformOf(s.work, t) in env.scripts
  {
  }

  /** All entries of a call that is done with its platforms. */
  lemma {:induction false} PlatformsHold(env: BigStep.Environment, s: State, pid: nat, ts: seq<string>, k: nat,
                                         world: BigStep.World)
    requires Good(s) && Committed(s, ts) && pid in s.calls && Owns(s.calls[pid])
    requires k <= |s.calls[pid].reports| <= |s.calls[pid].platforms|
    requires env.scripts.Keys == s.registered && BigStep.Registered(env, world) && Holds(s.work, ts, world)
    requires Feeds(env, s.work, ts + Runs(s.calls[pid].reports[..k]))
    ensures var c := s.calls[pid];
            && Holds(s.work, ts + Runs(c.reports[..k]),
                     BigStep.PlatformsWorld(env, world, c.contentID, c.platforms[..k]))
            && Calls.AllTell(c.reports[..k], BigStep.PlatformsEntries(env, world, c.contentID, c.platforms[..k]))
  {
    hide Good, Holds, Feeds, Committed, Owns, BigStep.PlatformWorld, BigStep.PlatformEntry, BigStep.PlatformsWorld,
         BigStep.PlatformsEntries, Calls.AllTell, Calls.Tells;
    var c := s.calls[pid];
    PlatformsUnfold(env, world, c.contentID, c.platforms, k);
    if k == 0 {
      assert ts + Runs(c.reports[..0]) == ts;
      NothingToTell(c.reports[..0], BigStep.PlatformsEntries(env, world, c.contentID, c.platforms[..0]));
    } else {
      FedBefore(env, s.work, ts, c.reports, k - 1);
      PlatformsHold(env, s, pid, ts, k - 1, world);
      EntryHolds(env, s, pid, ts, k - 1, BigStep.PlatformsWorld(env, world, c.contentID, c.platforms[..k - 1]));
      assert c.reports[..k] == c.reports[..k - 1] + [c.reports[k - 1]];
      TellsOneMore(c.reports[..k - 1], BigStep.PlatformsEntries(env, world, c.contentID, c.platforms[..k - 1]),
                   c.reports[k - 1],
                   BigStep.PlatformEntry(env, BigStep.PlatformsWorld(env, world, c.contentID, c.platforms[..k - 1]),
                                         c.contentID, c.platforms[k - 1]));
    }
  }

  lemma PlatformsUnfold(env: BigStep.Environment, world: BigStep.World, contentID: string, platforms: seq<string>,
                        k: nat)
    requires BigStep.Registered(env, world) && k <= |platforms|
    ensures k == 0 ==>
              && BigStep.PlatformsWorld(env, world, contentID, platforms[..k]) == world
              && BigStep.PlatformsEntries(env, world, contentID, platforms[..k]) == []
    ensures k > 0 ==>
              var before := BigStep.PlatformsWorld(env, world, contentID, platforms[..k - 1]);
              && BigStep.PlatformsWorld(env, world, contentID, platforms[..k])
              == BigStep.PlatformWorld(env, before, contentID, platforms[k - 1])
              && BigStep.PlatformsEntries(env, world, contentID, platforms[..k])
              == BigStep.PlatformsEntries(env, world, contentID, platforms[..k - 1])
                 + [BigStep.PlatformEntry(env, before, contentID, platforms[k - 1])]
  {
    hide BigStep.PlatformWorld, BigStep.PlatformEntry;
    if k > 0 { assert platforms[..k][..k - 1] == platforms[..k - 1]; }
  }

  lemma NothingToTell(reports: seq<Report>, entries: seq<BigStep.TaskStatus>)
    requires reports == [] && entries == []
    ensures Calls.AllTell(reports, entries)
  {
  }

  lemma TellsOneMore(reports: seq<Report>, entries: seq<BigStep.TaskStatus>, r: Report, e: BigStep.TaskStatus)
    requires Calls.AllTell(reports, entries) && Calls.Tells(r, e)
    ensures Calls.AllTell(reports + [r], entries + [e])
  {
  }

  lemma FedBefore(env: BigStep.Environment, w: Work, ts: seq<string>, reports: seq<Report>, i: nat)
    requires i < |reports| && Feeds(env, w, ts + Runs(reports[..i + 1]))
    ensures Feeds(env, w, ts + Runs(reports[..i]))
  {
    assert reports[..i + 1][..i] == reports[..i];
    if reports[i].origin.Executed? {
      assert ts + Runs(reports[..i + 1]) == ts + Runs(reports[..i]) + [reports[i].taskID];
      LastFed(env, w, ts + Runs(reports[..i]), reports[i].taskID);
    }
    hide Feeds;
  }

  // ----- The serial history of a run -----

  /** A whole call, at the moment of its final write, or what another actor does to the contents. */
  datatype Act = Completed(pid: nat, call: Call) | Others(step: Step)

  function ActsOf(s: State, step: Step): seq<Act> {
    if !Enabled(s, step) then []
    else match step
      case Move(pid, _, _, _, _) => if s.calls[pid].at.FinalWrite? then [Completed(pid, s.calls[pid])] else []
      case CreateContent(_) => [Others(step)]
      case MoveContent(_, _, _) => [Others(step)]
      case _ => []
  }

  function History(s: State, steps: seq<Step>): seq<Act> {
    if steps == [] then []
    else History(s, steps[..|steps| - 1]) + ActsOf(RunFrom(s, steps[..|steps| - 1]), steps[|steps| - 1])
  }

  /** The tasks of the completed calls, in their serial order. */
  function TasksOf(acts: seq<Act>): seq<string> {
    if acts == [] then []
    else
      TasksOf(acts[..|acts| - 1])
      + (match acts[|acts| - 1]
         case Completed(_, call) => Runs(call.reports)
         case Others(_) => [])
  }

  function ContentsAfter(t: ContentTable, step: Step): ContentTable {
    match step
    case CreateContent(content) => t[content.id := ContentRecord(content, 1)]
    case MoveContent(id, status, version) => UpdateContent(t, id, status, version)
    case _ => t
  }

  /** Empty stores, and adapters that nobody has called. */
  function Blank(env: BigStep.Environment): BigStep.World {
    BigStep.World(map[], TaskTable(map[], map[]), map[], map[], map[], 0, 0,
                  map p | p in env.scripts :: R.Talk(0, 0, 0))
  }

  /** One act after the other: a completed call is the whole big-step call. */
  function ActOn(env: BigStep.Environment, w: BigStep.World, act: Act): (w': BigStep.World)
    requires BigStep.Registered(env, w)
    ensures BigStep.Registered(env, w')
  {
    match act
    case Completed(_, call) => BigStep.PublishedWorld(env, w, call.contentID, call.platforms)
    case Others(step) => w.(contents := ContentsAfter(w.contents, step))
  }

  function Serial(env: BigStep.Environment, acts: seq<Act>): (w: BigStep.World)
    ensures BigStep.Registered(env, w)
  {
    if acts == [] then Blank(env) else ActOn(env, Serial(env, acts[..|acts| - 1]), acts[|acts| - 1])
  }

  // ----- The contents -----

  /** The contents are the serial ones, except that some are locked. */
  ghost predicate ShowsContents(t: ContentTable, serial: ContentTable) {
    serial.Keys == t.Keys && forall id :: id in t ==> ShowsContent(t, serial, id)
  }

  predicate ShowsContent(t: ContentTable, serial: ContentTable, id: string)
    requires id in t && id in serial
  {
    if t[id].content.status == Publishing then
      && serial[id].content.status.CanTransitionTo(Publishing)
      && t[id] == ContentRecord(serial[id].content.(status := Publishing), serial[id].version + 1)
    else serial[id] == t[id]
  }

  lemma OthersShow(s: State, step: Step, serial: ContentTable)
    requires Enabled(s, step) && (step.CreateContent? || step.MoveContent?) && ShowsContents(s.contents, serial)
    ensures ShowsContents(Next(s, step).contents, ContentsAfter(serial, step))
  {
    forall id | id in s.contents ensures ShowsContent(s.contents, serial, id) {}
    hide ContentStatus.CanTransitionTo;
  }

  /** Taking the lock shows on one side only. */
  lemma LockShows(t: ContentTable, c: Call, serial: ContentTable)
    requires ShowsContents(t, serial) && LockGranted(t, c)
    ensures ShowsContents(UpdateContent(t, c.contentID, Publishing, 0), serial)
  {
    assert ShowsContent(t, serial, c.contentID);
    assert !Publishing.CanTransitionTo(Publishing);
  }

  /** The final write shows on both sides. */
  lemma FinalShows(t: ContentTable, id: string, serial: ContentTable, status: ContentStatus)
    requires ShowsContents(t, serial) && id in t && t[id].content.status == Publishing
    requires status in [Published, PartiallyPublished, ContentStatus.Failed]
    ensures BigStep.Publishable(serial, id)
    ensures ShowsContents(UpdateContent(t, id, status, 0),
                          BigStep.Transitioned(UpdateContent(serial, id, Publishing, 0), id, Publishing, status))
  {
    assert ShowsContent(t, serial, id);
    assert Publishing.CanTransitionTo(status);
  }

  // ----- The moves of a call -----

  /** What a move of a call can change: it returns from before its lock or by its final write, and only the lock and
      the final write change contents. */
  predicate MoveShape(s: State, s': State, pid: nat)
    requires pid in s.calls
  {
    var c := s.calls[pid];
    && pid in s'.calls && s'.calls == s.calls[pid := s'.calls[pid]]
    && (s'.calls[pid].at.Returned? && !c.at.Returned? ==>
          (Early(c) && s'.calls[pid].at == Returned(false)) || c.at.FinalCheck? || c.at.FinalWrite?)
    && (c.at.Returned? ==> s'.calls[pid] == c)
    && (!c.at.TakeLock? && !c.at.FinalWrite? ==> s'.contents == s.contents)
    && (c.at.TakeLock? ==> s'.contents == UpdateContent(s.contents, c.contentID, Publishing, 0))
    && (!c.at.Running? && !c.at.MakeTask? ==> s'.work == s.work)
  }

  lemma PutShape(s: State, pid: nat, c': Call)
    requires pid in s.calls && !s.calls[pid].at.TakeLock? && (s.calls[pid].at.Returned? ==> c' == s.calls[pid])
    requires c'.at.Returned? && !s.calls[pid].at.Returned? ==>
               (Early(s.calls[pid]) && c'.at == Returned(false)) || s.calls[pid].at.FinalCheck?
    ensures MoveShape(s, Put(s, pid, c'), pid)
  {
    hide UpdateContent;
  }

  lemma LockingShape(s: State, pid: nat)
    requires pid in s.calls && s.calls[pid].at.TakeLock?
    ensures MoveShape(s, TakeLockStep(s, pid, s.calls[pid]), pid)
  {
    hide ContentStatus.CanTransitionTo;
  }

  lemma WorkingShape(s: State, pid: nat, now: int, later: int, id: string, o: Outcome)
    requires pid in s.calls
    ensures var c := s.calls[pid];
            && (c.at.ClaimKey? ==> MoveShape(s, ClaimStep(s, pid, c, now, later), pid))
            && (c.at.MakeTask? ==> MoveShape(s, MakeTaskStep(s, pid, c, id), pid))
            && (c.at.Running? ==> MoveShape(s, RunningStep(s, pid, c, o), pid))
            && (c.at.FinalWrite? ==> MoveShape(s, FinalWriteStep(s, pid, c), pid))
  {
    hide Aggregate, CreateStep, Claim, TaskExists, ClaimGranted, UpdateContent;
  }

  lemma EarlyReturns(contents: ContentTable, c: Call)
    ensures FetchStep(contents, c).at.Returned? ==> FetchStep(contents, c).at == Returned(false)
    ensures forall seen :: RecheckStep(contents, c, seen).at.Returned? ==>
                             RecheckStep(contents, c, seen).at == Returned(false)
  {
  }

  lemma MoveHasShape(s: State, pid: nat, now: int, later: int, id: string, reply: Reply)
    requires pid in s.calls
    ensures MoveShape(s, MoveStep(s, pid, now, later, id, reply), pid)
  {
    hide MoveShape, RunStep, FetchStep, RecheckStep, TakeLockStep, FinalCheckStep, FinalWriteStep, ClaimStep,
         MakeTaskStep, RunningStep, LookUpTask, Platform;
    var c := s.calls[pid];
    EarlyReturns(s.contents, c);
    WorkingShape(s, pid, now, later, id,
                 if c.at.Running? then RunStep(s.work, c.contentID, Platform(c), c.at.run, id, reply)
                 else Continue(s.work, Run("", 0, "", Count)));
    match c.at
    case TakeLock => LockingShape(s, pid);
    case Fetch => PutShape(s, pid, FetchStep(s.contents, c));
    case Recheck(seen) => PutShape(s, pid, RecheckStep(s.contents, c, seen));
    case NextPlatform => PutShape(s, pid, NextPlatformStep(s.registered, c));
    case LookUp => PutShape(s, pid, LookUpStep(s.work.table, c));
    case FinalCheck => PutShape(s, pid, FinalCheckStep(s.contents, c));
    case Returned(_) =>
      PutShape(s, pid, c);
      assert Put(s, pid, c) == s;
    case _ =>
  }

  lemma FinalCheckPasses(s: State, pid: nat)
    requires LocksOk(s) && pid in s.calls && s.calls[pid].at.FinalCheck?
    ensures FinalCheckStep(s.contents, s.calls[pid]) == s.calls[pid].(at := FinalWrite)
  {
    assert HoldsLock(s, pid);
  }

  // ----- Which tasks are committed -----

  /** Tasks keep their authors, and the author of a new one has not returned. */
  ghost predicate AuthorsGrow(s: State, s': State) {
    && (forall t :: t in s.work.table.tasks ==>
          && t in s'.work.table.tasks
          && t in s.work.createdBy && t in s'.work.createdBy && s'.work.createdBy[t] == s.work.createdBy[t])
    && (forall t :: t in s'.work.table.tasks && t !in s.work.table.tasks ==> !Author(s', t).at.Returned?)
  }

  lemma AuthorsKnown(s: State)
    requires Good(s)
    ensures forall t :: t in s.work.table.tasks ==> AuthorOk(s, t)
  {
    forall t | t in s.work.table.tasks ensures AuthorOk(s, t) { assert TaskStoryOk(s, t); }
    hide T.Inv, AuthorOk, Story;
  }

  lemma SameWorkAuthors(s: State, s': State)
    requires Good(s) && s'.work == s.work
    ensures AuthorsGrow(s, s')
  {
    hide Good;
    AuthorsKnown(s);
  }

  lemma RunKeepsAuthors(s: State, pid: nat, id: string, reply: Reply)
    requires Good(s) && pid in s.calls && s.calls[pid].at.Running? && id !in s.work.attempts
    ensures var c := s.calls[pid];
            var o := RunStep(s.work, c.contentID, Platform(c), c.at.run, id, reply);
            o.work.createdBy == s.work.createdBy && o.work.table.tasks.Keys == s.work.table.tasks.Keys
  {
    var c := s.calls[pid];
    RunnersStory(s, pid);
    hide Good, T.Inv, StoriesOk, RunStep, WorkOk, RunLedger, RunStory, StepLedger, Touches, Platform;
    StepWorks(s.work, c.contentID, Platform(c), c.at.run, id, reply);
    TouchesIdentity(s.work, RunStep(s.work, c.contentID, Platform(c), c.at.run, id, reply).work, c.at.run.taskID);
  }

  lemma RunningAuthors(s: State, pid: nat, o: Outcome)
    requires Good(s) && pid in s.calls && s.calls[pid].at.Running?
    requires o.work.createdBy == s.work.createdBy && o.work.table.tasks.Keys == s.work.table.tasks.Keys
    ensures AuthorsGrow(s, RunningStep(s, pid, s.calls[pid], o))
  {
    hide Good;
    AuthorsKnown(s);
  }

  lemma MakingAuthors(s: State, pid: nat, id: string)
    requires Good(s) && pid in s.calls && s.calls[pid].at.MakeTask? && id !in s.work.table.tasks
    ensures AuthorsGrow(s, MakeTaskStep(s, pid, s.calls[pid], id))
  {
    hide Good;
    AuthorsKnown(s);
  }

  lemma MoveAuthors(s: State, pid: nat, now: int, later: int, id: string, reply: Reply)
    requires Good(s) && pid in s.calls && id !in s.work.table.tasks && id !in s.work.attempts
    ensures AuthorsGrow(s, MoveStep(s, pid, now, later, id, reply))
  {
    hide Good, AuthorsGrow, RunStep, RunningStep, MakeTaskStep, FetchStep, RecheckStep, TakeLockStep, FinalCheckStep,
         FinalWriteStep, ClaimStep;
    if s.calls[pid].at.Running? {
      var c := s.calls[pid];
      RunKeepsAuthors(s, pid, id, reply);
      RunningAuthors(s, pid, RunStep(s.work, c.contentID, Platform(c), c.at.run, id, reply));
    } else if s.calls[pid].at.MakeTask? {
      MakingAuthors(s, pid, id);
    } else {
      MoveHasShape(s, pid, now, later, id, reply);
      SameWorkAuthors(s, MoveStep(s, pid, now, later, id, reply));
    }
  }

  /** A move that commits nothing. */
  lemma MoveCommitted(s: State, s': State, pid: nat, ts: seq<string>)
    requires Good(s) && Committed(s, ts) && pid in s.calls && MoveShape(s, s', pid) && AuthorsGrow(s, s')
    requires s'.calls[pid].at.Returned? && !s.calls[pid].at.Returned? ==> Early(s.calls[pid])
    ensures Committed(s', ts)
  {
    hide Good;
    AuthorsKnown(s);
    forall t | t in s'.work.table.tasks ensures t in ts <==> Author(s', t).at.Returned? {
      if t in s.work.table.tasks { assert AuthorOk(s, t); }
    }
  }

  /** A call's executed entries name tasks of its own. */
  lemma {:induction false} RunsAreOwn(s: State, pid: nat, k: nat)
    requires Good(s) && pid in s.calls && k <= |s.calls[pid].reports|
    ensures forall t :: t in Runs(s.calls[pid].reports[..k]) ==>
              t in s.work.table.tasks && t in s.work.createdBy && s.work.createdBy[t] == pid
  {
    hide Good, AuthorOk, Story, Agrees, EndIn;
    if k > 0 {
      RunsAreOwn(s, pid, k - 1);
      EntryMeans(s, pid, k - 1);
      assert s.calls[pid].reports[..k][..k - 1] == s.calls[pid].reports[..k - 1];
    }
  }

  lemma EntryFor(s: State, pid: nat, t: string) returns (i: nat)
    requires pid in s.calls && s.calls[pid].at.FinalWrite? && t in s.work.table.tasks && AuthorOk(s, t)
    requires s.work.createdBy[t] == pid
    ensures i < |s.calls[pid].reports| && i < |s.calls[pid].platforms|
    ensures s.calls[pid].platforms[i] == s.work.table.tasks[t].platform && s.calls[pid].platforms[i] in s.registered
    ensures s.work.table.tasks[t].contentID == s.calls[pid].contentID
  {
    assert s.work.table.tasks[t].platform in Handled(s.calls[pid]);
    i :| i < |Handled(s.calls[pid])| && Handled(s.calls[pid])[i] == s.work.table.tasks[t].platform;
  }

  /** Every task of a call that is done with its platforms is made by now. */
  lemma OwnIsMade(s: State, pid: nat, ts: seq<string>, t: string)
    requires Good(s) && Committed(s, ts) && pid in s.calls && s.calls[pid].at.FinalWrite?
    requires t in s.work.table.tasks && AuthorOk(s, t) && s.work.createdBy[t] == pid
    ensures t in ts + Runs(s.calls[pid].reports)
  {
    hide Good, Story, Agrees, EndIn, Committed, AuthorOk, WorkOk, Combo, EntryOk;
    var c := s.calls[pid];
    var i := EntryFor(s, pid, t);
    EntryMeans(s, pid, i);
    NamedIsMade(s, pid, ts, i);
    GoodWork(s);
    OwnKey(s.work, t);
    OwnKey(s.work, c.reports[i].taskID);
    if t in Runs(c.reports[..i + 1]) { RunsGrow(c.reports, i + 1, |c.reports|, t); }
    assert c.reports[..|c.reports|] == c.reports;
  }

  /** The final write commits the tasks of the call. */
  lemma FinalCommitted(s: State, s': State, pid: nat, ts: seq<string>)
    requires Good(s) && Committed(s, ts) && pid in s.calls && s.calls[pid].at.FinalWrite? && s'.work == s.work
    requires pid in s'.calls && s'.calls == s.calls[pid := s'.calls[pid]] && s'.calls[pid].at.Returned?
    ensures Committed(s', ts + Runs(s.calls[pid].reports))
  {
    hide Good, AuthorOk;
    AuthorsKnown(s);
    var reports := s.calls[pid].reports;
    RunsAreOwn(s, pid, |reports|);
    assert reports[..|reports|] == reports;
    forall t | t in s.work.table.tasks ensures t in ts + Runs(reports) <==> Author(s', t).at.Returned? {
      AuthorMeans(s, t);
      if s.work.createdBy[t] == pid { OwnIsMade(s, pid, ts, t); }
    }
  }

  lemma AuthorMeans(s: State, t: string)
    requires t in s.work.table.tasks && AuthorOk(s, t)
    ensures t in s.work.createdBy && s.work.createdBy[t] in s.calls
  {
  }

  // ----- The final write -----

  /** The serial world after a call whose final write comes next, and its answer. */
  lemma CompletedHolds(env: BigStep.Environment, s: State, pid: nat, ts: seq<string>, world: BigStep.World)
    requires Good(s) && Committed(s, ts) && pid in s.calls && s.calls[pid].at.FinalWrite?
    requires env.scripts.Keys == s.registered && BigStep.Registered(env, world)
    requires Holds(s.work, ts, world) && ShowsContents(s.contents, world.contents)
    requires Feeds(env, s.work, ts + Runs(s.calls[pid].reports))
    ensures var c := s.calls[pid];
            var after := BigStep.PublishedWorld(env, world, c.contentID, c.platforms);
            && Holds(s.work, ts + Runs(c.reports), after)
            && ShowsContents(UpdateContent(s.contents, c.contentID, Aggregate(c.reports), 0), after.contents)
            && Calls.Shows(c.(at := Returned(true)), BigStep.PublishedAnswer(env, world, c.contentID, c.platforms))
  {
    hide Good, Committed, Holds, Feeds, ShowsContents, Aggregate, AggregateStatus, BigStep.PlatformsWorld,
         BigStep.PlatformsEntries, BigStep.Transitioned, UpdateContent, Calls.AllTell, BigStep.Statuses, BigStep.Locked,
         BigStep.PublishedWorld, BigStep.PublishedAnswer, BigStep.Publishable, Owns;
    var c := s.calls[pid];
    FinalStands(s, pid);
    FinalShows(s.contents, c.contentID, world.contents, Aggregate(c.reports));
    PublishedMeans(env, world, c.contentID, c.platforms);
    var locked := BigStep.Locked(world, c.contentID);
    LockedHolds(s.work, ts, world, locked);
    assert c.reports[..|c.reports|] == c.reports && c.platforms[..|c.reports|] == c.platforms;
    PlatformsHold(env, s, pid, ts, |c.reports|, locked);
    var done := BigStep.PlatformsWorld(env, locked, c.contentID, c.platforms);
    Calls.SameAggregate(c.reports, BigStep.PlatformsEntries(env, locked, c.contentID, c.platforms));
    LockedHolds(s.work, ts + Runs(c.reports), done, BigStep.PublishedWorld(env, world, c.contentID, c.platforms));
  }

  lemma PublishedMeans(env: BigStep.Environment, world: BigStep.World, id: string, platforms: seq<string>)
    requires BigStep.Registered(env, world) && BigStep.Publishable(world.contents, id)
    ensures var contents, locked := UpdateContent(world.contents, id, Publishing, 0), BigStep.Locked(world, id);
            && locked == world.(contents := contents) && BigStep.Registered(env, locked)
            && var done := BigStep.PlatformsWorld(env, locked, id, platforms);
               var entries := BigStep.PlatformsEntries(env, locked, id, platforms);
               var status := AggregateStatus(BigStep.Statuses(entries));
               && BigStep.PublishedWorld(env, world, id, platforms)
               == done.(contents := BigStep.Transitioned(contents, id, Publishing, status))
               && BigStep.PublishedAnswer(env, world, id, platforms) == BigStep.Answered(status, entries)
  {
    hide UpdateContent, BigStep.PlatformsWorld, BigStep.PlatformsEntries, BigStep.Transitioned, AggregateStatus,
         BigStep.Statuses;
  }

  lemma FinalStands(s: State, pid: nat)
    requires Good(s) && pid in s.calls && s.calls[pid].at.FinalWrite?
    ensures var c := s.calls[pid];
            && Owns(c) && |c.reports| == |c.platforms|
            && c.contentID in s.contents && s.contents[c.contentID].content.status == Publishing
            && Aggregate(c.reports) in [Published, PartiallyPublished, ContentStatus.Failed]
  {
    assert HoldsLock(s, pid) && PositionOk(s.registered, s.calls[pid]);
    hide StoriesOk, TasksOk, ReportsOk, ProtocolKeys.KeysOk;
  }

  /** Contents are beside the point. */
  lemma LockedHolds(w: Work, ts: seq<string>, world: BigStep.World, world': BigStep.World)
    requires Holds(w, ts, world) && world' == world.(contents := world'.contents)
    ensures Holds(w, ts, world')
  {
    hide TasksAmong, IndexAmong, AttemptsAmong, PostsAmong, DrawsUpTo, TalkUpTo, BigStep.TaskKeyOf;
  }

  // ----- Step by step -----

  /** Every completed call reports what its big-step call answers. */
  ghost predicate AnswersTell(env: BigStep.Environment, acts: seq<Act>) {
    acts == [] ||
    (var before := acts[..|acts| - 1];
     && AnswersTell(env, before)
     && match acts[|acts| - 1]
        case Completed(_, call) =>
          Calls.Shows(call.(at := Returned(true)),
                      BigStep.PublishedAnswer(env, Serial(env, before), call.contentID, call.platforms))
        case Others(_) => true)
  }

  /** The serial world holds what is committed, shows the contents, and its calls answered as they did. */
  ghost predicate Serialized(env: BigStep.Environment, s: State, acts: seq<Act>) {
    var world := Serial(env, acts);
    Holds(s.work, TasksOf(acts), world) && ShowsContents(s.contents, world.contents) && AnswersTell(env, acts)
  }

  /** The tasks of returned calls are at rest. */
  lemma CommittedRest(s: State, s': State, ts: seq<string>)
    requires Good(s) && Good(s') && Committed(s, ts) && Onward(s, s')
    ensures AllSame(s.work, s'.work, ts)
  {
    GoodWork(s);
    GoodWork(s');
    forall t | t in ts ensures Story(s.work, t) && SameStory(s.work, s'.work, t) {
      assert TaskStoryOk(s, t) && !RunBy(s, t);
    }
    hide T.Inv, WorkOk, Story, SameStory, AuthorOk;
  }

  /** Nothing is completed, and the contents show as before. */
  lemma QuietStep(env: BigStep.Environment, s: State, s': State, acts: seq<Act>)
    requires AllSame(s.work, s'.work, TasksOf(acts)) && Serialized(env, s, acts)
    requires ShowsContents(s'.contents, Serial(env, acts).contents)
    ensures Serialized(env, s', acts)
  {
    SameHolds(s.work, s'.work, TasksOf(acts), Serial(env, acts));
    hide AllSame, Holds, ShowsContents, AnswersTell;
  }

  lemma OthersStep(env: BigStep.Environment, s: State, step: Step, acts: seq<Act>)
    requires Serialized(env, s, acts) && Enabled(s, step) && (step.CreateContent? || step.MoveContent?)
    ensures Serialized(env, Next(s, step), acts + [Others(step)])
  {
    var acts', world := acts + [Others(step)], Serial(env, acts);
    assert acts'[..|acts|] == acts;
    OthersShow(s, step, world.contents);
    assert TasksOf(acts') == TasksOf(acts);
    LockedHolds(s.work, TasksOf(acts), world, Serial(env, acts'));
    assert Next(s, step).work == s.work;
    hide Holds, ShowsContents, Enabled, ContentsAfter;
  }

  lemma CompletedStep(env: BigStep.Environment, s: State, s': State, pid: nat, acts: seq<Act>)
    requires Good(s) && Serialized(env, s, acts) && Committed(s, TasksOf(acts))
    requires pid in s.calls && s.calls[pid].at.FinalWrite? && env.scripts.Keys == s.registered
    requires Feeds(env, s.work, TasksOf(acts + [Completed(pid, s.calls[pid])]))
    requires s'.work == s.work
    requires s'.contents == UpdateContent(s.contents, s.calls[pid].contentID, Aggregate(s.calls[pid].reports), 0)
    ensures Serialized(env, s', acts + [Completed(pid, s.calls[pid])])
  {
    hide Good, Committed, Holds, ShowsContents, Feeds, Aggregate, UpdateContent, BigStep.PublishedWorld,
         BigStep.PublishedAnswer, Calls.Shows;
    var c := s.calls[pid];
    var acts' := acts + [Completed(pid, c)];
    assert acts'[..|acts|] == acts;
    CompletedHolds(env, s, pid, TasksOf(acts), Serial(env, acts));
  }

  lemma TasksOfOne(acts: seq<Act>, act: Act)
    ensures TasksOf(acts + [act]) == TasksOf(acts) + (if act.Completed? then Runs(act.call.reports) else [])
    ensures acts + [] == acts
  {
    assert (acts + [act])[..|acts|] == acts;
    hide Runs;
  }

  lemma ClockIsQuiet(s: State, now: int, ts: seq<string>)
    requires Good(s) && Committed(s, ts)
    ensures Good(s.(now := now)) && Committed(s.(now := now), ts)
  {
    T.ClockIsFramed(s, now);
    FrameKeepsStories(s, s.(now := now));
    hide T.Inv, StoriesOk;
  }

  /** What a move returns to, and what it writes. */
  lemma MoveOf(s: State, pid: nat, now: int, later: int, id: string, reply: Reply, ts: seq<string>)
    requires Good(s) && Committed(s, ts) && pid in s.calls && id !in s.work.table.tasks && id !in s.work.attempts
    ensures var s', c := MoveStep(s, pid, now, later, id, reply), s.calls[pid];
            if c.at.FinalWrite? then
              && Committed(s', ts + Runs(c.reports)) && s'.work == s.work
              && s'.contents == UpdateContent(s.contents, c.contentID, Aggregate(c.reports), 0)
            else
              && Committed(s', ts)
              && (s'.contents == s.contents ||
                  (LockGranted(s.contents, c) && s'.contents == UpdateContent(s.contents, c.contentID, Publishing, 0)))
  {
    var s', c := MoveStep(s, pid, now, later, id, reply), s.calls[pid];
    MoveHasShape(s, pid, now, later, id, reply);
    if c.at.FinalWrite? {
      FinalWriteMeans(s, pid);
      FinalCommitted(s, s', pid, ts);
    } else {
      MoveAuthors(s, pid, now, later, id, reply);
      if c.at.FinalCheck? {
        GoodLocks(s);
        FinalCheckPasses(s, pid);
      }
      MoveCommitted(s, s', pid, ts);
    }
    hide Good, Committed, AuthorsGrow, Aggregate, RunStep, ClaimStep, MakeTaskStep, FetchStep, RecheckStep, LookUpStep,
         NextPlatformStep, RunningStep, TakeLockStep, ContentStatus.CanTransitionTo, Platform;
  }

  lemma GoodLocks(s: State)
    requires Good(s)
    ensures LocksOk(s)
  {
    hide LocksOk;
  }

  lemma FinalWriteMeans(s: State, pid: nat)
    requires pid in s.calls && s.calls[pid].at.FinalWrite?
    ensures var s', c := FinalWriteStep(s, pid, s.calls[pid]), s.calls[pid];
            && s'.work == s.work && pid in s'.calls && s'.calls[pid].at.Returned?
            && s'.calls == s.calls[pid := s'.calls[pid]]
            && s'.contents == UpdateContent(s.contents, c.contentID, Aggregate(c.reports), 0)
  {
    hide Aggregate, UpdateContent;
  }

  lemma FramedCommitted(s: State, s': State, ts: seq<string>)
    requires Good(s) && Committed(s, ts) && T.Framed(s, s')
    ensures Committed(s', ts)
  {
    AuthorsKnown(s);
    forall t | t in s.work.table.tasks ensures Author(s', t) == Author(s, t) { AuthorMeans(s, t); }
    hide Good, AuthorOk;
  }

  lemma {:induction false} CommittedKept(s: State, step: Step, acts: seq<Act>)
    requires Good(s) && Committed(s, TasksOf(acts))
    ensures Committed(Next(s, step), TasksOf(acts + ActsOf(s, step)))
  {
    hide Good, Committed, MoveStep, TasksOf, Runs;
    if !Enabled(s, step) {
      assert acts + [] == acts;
    } else if step.Move? {
      var s1, c := s.(now := step.later), s.calls[step.pid];
      ClockIsQuiet(s, step.later, TasksOf(acts));
      MoveOf(s1, step.pid, step.now, step.later, step.id, step.reply, TasksOf(acts));
      TasksOfOne(acts, Completed(step.pid, c));
    } else {
      T.OthersAreFramed(s, step);
      FramedCommitted(s, Next(s, step), TasksOf(acts));
      TasksOfOne(acts, Others(step));
      assert TasksOf(acts) + [] == TasksOf(acts);
    }
  }

  lemma {:induction false} CommittedAlways(registered: set<string>, now: int, steps: seq<Step>)
    ensures var s := RunFrom(Initial(registered, now), steps);
            Good(s) && s.registered == registered && Committed(s, TasksOf(History(Initial(registered, now), steps)))
  {
    hide Good, Committed, Next, ActsOf, TasksOf;
    var start := Initial(registered, now);
    StoriesAlways(registered, now, steps);
    GoodMeans(RunFrom(start, steps));
    if steps == [] {
      NothingCommitted(start);
    } else {
      var before := RunFrom(start, steps[..|steps| - 1]);
      CommittedAlways(registered, now, steps[..|steps| - 1]);
      CommittedKept(before, steps[|steps| - 1], History(start, steps[..|steps| - 1]));
      SameRegistered(before, steps[|steps| - 1]);
    }
  }

  lemma GoodMeans(s: State)
    requires T.Inv(s) && StoriesOk(s)
    ensures Good(s)
  {
  }

  lemma NothingCommitted(s: State)
    requires s.work.table.tasks == map[]
    ensures Committed(s, TasksOf([]))
  {
  }

  lemma SameRegistered(s: State, step: Step)
    requires Good(s)
    ensures Next(s, step).registered == s.registered
  {
    StoriesKept(s, step);
    hide T.Inv, StoriesOk, Next, SameStory;
  }

  /** A step that is neither a final write nor another actor's leaves the serial history as it is. */
  lemma MoveSerialized(env: BigStep.Environment, s: State, s': State, step: Step, acts: seq<Act>)
    requires Good(s) && Committed(s, TasksOf(acts)) && Serialized(env, s, acts) && env.scripts.Keys == s.registered
    requires Enabled(s, step) && step.Move? && s' == Next(s, step) && AllSame(s.work, s'.work, TasksOf(acts))
    requires Feeds(env, s'.work, TasksOf(acts + ActsOf(s, step)))
    ensures Serialized(env, s', acts + ActsOf(s, step))
  {
    hide Good, Committed, MoveStep, TasksOf, Runs, AllSame, Feeds, ShowsContents, Holds, AnswersTell, UpdateContent,
         Aggregate, Serial;
    var s1, c := s.(now := step.later), s.calls[step.pid];
    ClockIsQuiet(s, step.later, TasksOf(acts));
    MoveOf(s1, step.pid, step.now, step.later, step.id, step.reply, TasksOf(acts));
    if c.at.FinalWrite? {
      CompletedStep(env, s, s', step.pid, acts);
    } else {
      if s'.contents != s.contents { LockShows(s.contents, c, Serial(env, acts).contents); }
      TasksOfOne(acts, Completed(step.pid, c));
      QuietStep(env, s, s', acts);
    }
  }

  lemma {:induction false} SerializedKept(env: BigStep.Environment, s: State, step: Step, acts: seq<Act>)
    requires Good(s) && Committed(s, TasksOf(acts)) && Serialized(env, s, acts) && env.scripts.Keys == s.registered
    requires Good(Next(s, step)) && Feeds(env, Next(s, step).work, TasksOf(acts + ActsOf(s, step)))
    ensures Serialized(env, Next(s, step), acts + ActsOf(s, step))
  {
    hide T.Inv, StoriesOk, Committed, MoveStep, TasksOf, AllSame, Feeds, Serialized, Onward;
    StoriesKept(s, step);
    CommittedRest(s, Next(s, step), TasksOf(acts));
    if !Enabled(s, step) {
      assert acts + [] == acts;
    } else if step.Move? {
      MoveSerialized(env, s, Next(s, step), step, acts);
    } else if step.CreateContent? || step.MoveContent? {
      OthersStep(env, s, step, acts);
    } else {
      assert acts + [] == acts;
      ParsedSerialized(env, s, acts);
      QuietStep(env, s, Next(s, step), acts);
    }
  }

  lemma ParsedSerialized(env: BigStep.Environment, s: State, acts: seq<Act>)
    requires Serialized(env, s, acts)
    ensures ShowsContents(s.contents, Serial(env, acts).contents)
  {
  }

  /** In an environment that feeds the completed tasks, every reachable state is serialized. */
  lemma {:induction false} SerializedAlways(env: BigStep.Environment, registered: set<string>, now: int,
                                            steps: seq<Step>)
    requires env.scripts.Keys == registered
    requires Feeds(env, RunFrom(Initial(registered, now), steps).work,
                   TasksOf(History(Initial(registered, now), steps)))
    ensures Serialized(env, RunFrom(Initial(registered, now), steps), History(Initial(registered, now), steps))
  {
    hide Good, Committed, Next, ActsOf, TasksOf, Feeds, Serialized;
    var start := Initial(registered, now);
    if steps == [] {
      BlankSerialized(env, start);
    } else {
      var k := |steps| - 1;
      var before, acts := RunFrom(start, steps[..k]), History(start, steps[..k]);
      CommittedAlways(registered, now, steps[..k]);
      CommittedAlways(registered, now, steps);
      FedSoFar(env, before, steps[k], acts);
      SerializedAlways(env, registered, now, steps[..k]);
      SerializedKept(env, before, steps[k], acts);
    }
  }

  lemma BlankSerialized(env: BigStep.Environment, s: State)
    requires s.contents == map[] && s.work == Work(TaskTable(map[], map[]), map[], map[], multiset{}, map[], map[])
    ensures Serialized(env, s, [])
  {
  }

  lemma FedSoFar(env: BigStep.Environment, s: State, step: Step, acts: seq<Act>)
    requires Good(s) && Good(Next(s, step)) && Committed(s, TasksOf(acts))
    requires Feeds(env, Next(s, step).work, TasksOf(acts + ActsOf(s, step)))
    ensures Feeds(env, s.work, TasksOf(acts))
  {
    hide T.Inv, StoriesOk, Committed, Next, Feeds, Runs, AllSame, Onward;
    StoriesKept(s, step);
    CommittedRest(s, Next(s, step), TasksOf(acts));
    OneActMore(acts, ActsOf(s, step));
    FeedsPrefix(env, Next(s, step).work, TasksOf(acts), TasksOf(acts + ActsOf(s, step))[|TasksOf(acts)|..]);
    SameFeeds(env, s.work, Next(s, step).work, TasksOf(acts));
  }

  lemma OneActMore(acts: seq<Act>, more: seq<Act>)
    requires |more| <= 1
    ensures TasksOf(acts) <= TasksOf(acts + more)
    ensures TasksOf(acts) + TasksOf(acts + more)[|TasksOf(acts)|..] == TasksOf(acts + more)
  {
    if more == [] {
      assert acts + more == acts;
    } else {
      assert more == [more[0]];
      TasksOfOne(acts, more[0]);
    }
    hide TasksOf;
  }

  // ----- The theorem -----

  /** The completed acts are the calls that have taken their lock and returned, each once and as it is now. */
  ghost predicate OncePerCall(s: State, acts: seq<Act>) {
    && (forall i :: 0 <= i < |acts| && acts[i].Completed? ==>
          acts[i].pid in s.calls && s.calls[acts[i].pid] == acts[i].call.(at := Returned(true)))
    && (forall i, j :: 0 <= i < j < |acts| && acts[i].Completed? && acts[j].Completed? ==> acts[i].pid != acts[j].pid)
    && (forall pid :: pid in s.calls && s.calls[pid].at == Returned(true) ==> Appears(acts, pid))
  }

  predicate Appears(acts: seq<Act>, pid: nat) {
    exists i :: 0 <= i < |acts| && acts[i].Completed? && acts[i].pid == pid
  }

  lemma AppearsStill(acts: seq<Act>, more: seq<Act>, pid: nat)
    requires Appears(acts, pid)
    ensures Appears(acts + more, pid)
  {
    var i :| 0 <= i < |acts| && acts[i].Completed? && acts[i].pid == pid;
    assert (acts + more)[i] == acts[i];
  }

  /** Another actor's step, or a move that returns without having held the lock. */
  lemma SameCompleted(s: State, s': State, acts: seq<Act>, more: seq<Act>)
    requires OncePerCall(s, acts) && |more| <= 1 && (more != [] ==> more[0].Others?)
    requires forall pid :: pid in s.calls && s.calls[pid].at == Returned(true) ==>
               pid in s'.calls && s'.calls[pid] == s.calls[pid]
    requires forall pid :: pid in s'.calls && s'.calls[pid].at == Returned(true) ==>
               pid in s.calls && s.calls[pid].at == Returned(true)
    ensures OncePerCall(s', acts + more)
  {
    forall pid | pid in s'.calls && s'.calls[pid].at == Returned(true) ensures Appears(acts + more, pid) {
      AppearsStill(acts, more, pid);
    }
  }

  lemma OneCompleted(s: State, s': State, pid: nat, acts: seq<Act>)
    requires OncePerCall(s, acts) && pid in s.calls && s.calls[pid].at.FinalWrite?
    requires s'.calls == s.calls[pid := s.calls[pid].(at := Returned(true))]
    ensures OncePerCall(s', acts + [Completed(pid, s.calls[pid])])
  {
    var acts' := acts + [Completed(pid, s.calls[pid])];
    assert acts'[|acts|].pid == pid;
    forall p | p in s'.calls && s'.calls[p].at == Returned(true) ensures Appears(acts', p) {
      if p != pid { AppearsStill(acts, [Completed(pid, s.calls[pid])], p); }
    }
  }

  lemma OncePerCallKept(s: State, step: Step, acts: seq<Act>)
    requires Good(s) && OncePerCall(s, acts)
    ensures OncePerCall(Next(s, step), acts + ActsOf(s, step))
  {
    hide Good, OncePerCall, MoveStep;
    if !Enabled(s, step) {
      assert acts + [] == acts;
    } else if step.Move? {
      var s1, c := s.(now := step.later), s.calls[step.pid];
      MoveHasShape(s1, step.pid, step.now, step.later, step.id, step.reply);
      if c.at.FinalWrite? {
        FinalReturns(s1, step.pid, step.now, step.later, step.id, step.reply);
        OneCompleted(s, Next(s, step), step.pid, acts);
      } else {
        if c.at.FinalCheck? {
          GoodLocks(s);
          FinalCheckPasses(s, step.pid);
          FinalCheckReturns(s1, step.pid, step.now, step.later, step.id, step.reply);
        }
        SameCompleted(s, Next(s, step), acts, []);
      }
    } else {
      T.OthersAreFramed(s, step);
      SameCompleted(s, Next(s, step), acts, ActsOf(s, step));
    }
  }

  lemma FinalReturns(s: State, pid: nat, now: int, later: int, id: string, reply: Reply)
    requires pid in s.calls && s.calls[pid].at.FinalWrite?
    ensures MoveStep(s, pid, now, later, id, reply).calls == s.calls[pid := s.calls[pid].(at := Returned(true))]
  {
    hide Aggregate, UpdateContent;
  }

  lemma FinalCheckReturns(s: State, pid: nat, now: int, later: int, id: string, reply: Reply)
    requires pid in s.calls && s.calls[pid].at.FinalCheck?
    ensures MoveStep(s, pid, now, later, id, reply).calls == s.calls[pid := FinalCheckStep(s.contents, s.calls[pid])]
  {
    hide FinalCheckStep;
  }

  lemma {:induction false} HistoryOfCalls(registered: set<string>, now: int, steps: seq<Step>)
    ensures OncePerCall(RunFrom(Initial(registered, now), steps), History(Initial(registered, now), steps))
  {
    if steps != [] {
      var start, k := Initial(registered, now), |steps| - 1;
      HistoryOfCalls(registered, now, steps[..k]);
      CommittedAlways(registered, now, steps[..k]);
      OncePerCallKept(RunFrom(start, steps[..k]), steps[k], History(start, steps[..k]));
    }
    hide Good, Committed, Next, ActsOf, OncePerCall;
  }

  /** At every moment of every run, whatever a clock shows, there is one environment in which the completed calls,
      applied whole and one after the other between the other actors' changes of contents, lead to what the stores
      hold without the calls that still run. */
  lemma {:induction false} SerializableSoFar(registered: set<string>, now: int, steps: seq<Step>, readings: nat -> int)
    returns (env: BigStep.Environment)
    ensures env.scripts.Keys == registered && env.readings == readings
    ensures var s, acts := RunFrom(Initial(registered, now), steps), History(Initial(registered, now), steps);
            OncePerCall(s, acts) && Committed(s, TasksOf(acts)) && Serialized(env, s, acts)
  {
    hide Good, Committed, Serialized, Feeds, OncePerCall, TasksOf, Story;
    var s, acts := RunFrom(Initial(registered, now), steps), History(Initial(registered, now), steps);
    HistoryOfCalls(registered, now, steps);
    CommittedAlways(registered, now, steps);
    CommittedStories(s, TasksOf(acts));
    env := SomeEnvironment(s.work, TasksOf(acts), registered, readings);
    SerializedAlways(env, registered, now, steps);
  }

  lemma CommittedStories(s: State, ts: seq<string>)
    requires Good(s) && Committed(s, ts)
    ensures forall t :: t in ts ==> t in s.work.table.tasks && Story(s.work, t) && PlatformOf(s.work, t) in s.registered
  {
    forall t | t in ts ensures Story(s.work, t) && PlatformOf(s.work, t) in s.registered {
      assert TaskStoryOk(s, t) && !RunBy(s, t);
    }
    hide T.Inv, Story;
  }

  /** With no call running, everything is committed. */
  lemma AllTasks(s: State, ts: seq<string>)
    requires Good(s) && Committed(s, ts) && forall pid :: pid in s.calls ==> s.calls[pid].at.Returned?
    ensures forall t :: t in s.work.table.tasks ==> t in ts
  {
    AuthorsKnown(s);
    forall t | t in s.work.table.tasks ensures t in ts { AuthorMeans(s, t); }
    hide Good, AuthorOk;
  }

  lemma Everything(w: Work, ts: seq<string>)
    requires WorkOk(w) && forall t :: t in w.table.tasks ==> t in ts
    ensures TasksAmong(w, ts) == w.table.tasks && PostsAmong(w, ts) == w.posts
    ensures IndexAmong(w, ts) == w.table.byCombo && AttemptsAmong(w, ts) == w.attempts
  {
    forall k | k in w.table.byCombo ensures w.table.byCombo[k] in ts { assert IndexEntryOk(w.table, k); }
    forall id | id in w.attempts ensures w.attempts[id].taskID in ts { assert Traced(w, id); }
    assert w.posts.Keys <= w.table.tasks.Keys;
    hide WorkOk, Combo, Opened;
  }

  /** And no content is locked. */
  lemma NoneLocked(s: State, serial: ContentTable)
    requires Good(s) && forall pid :: pid in s.calls ==> s.calls[pid].at.Returned?
    requires ShowsContents(s.contents, serial)
    ensures serial == s.contents
  {
    GoodLocks(s);
    forall id | id in s.contents ensures serial[id] == s.contents[id] {
      assert s.contents[id].content.status == Publishing ==> HasOwner(s, id);
      assert ShowsContent(s.contents, serial, id);
    }
    hide Good;
  }

  /** Once all calls have returned, contents, tasks, attempts and posts are exactly the serial ones. */
  lemma {:induction false} Serializable(registered: set<string>, now: int, steps: seq<Step>, readings: nat -> int)
    returns (env: BigStep.Environment)
    requires var s := RunFrom(Initial(registered, now), steps);
             forall pid :: pid in s.calls ==> s.calls[pid].at.Returned?
    ensures env.scripts.Keys == registered && env.readings == readings
    ensures var s, acts := RunFrom(Initial(registered, now), steps), History(Initial(registered, now), steps);
            var world := Serial(env, acts);
            && world.contents == s.contents && world.table == s.work.table
            && world.attempts == s.work.attempts && world.posts == s.work.posts
            && OncePerCall(s, acts) && AnswersTell(env, acts)
  {
    env := SerializableSoFar(registered, now, steps, readings);
    var s, acts := RunFrom(Initial(registered, now), steps), History(Initial(registered, now), steps);
    CommittedAlways(registered, now, steps);
    AllTasks(s, TasksOf(acts));
    GoodWork(s);
    Everything(s.work, TasksOf(acts));
    NoneLocked(s, Serial(env, acts).contents);
    hide Good, Committed, OncePerCall, AnswersTell, WorkOk, TasksAmong, IndexAmong, AttemptsAmong, PostsAmong,
         ShowsContents, History, RunFrom;
  }
}
