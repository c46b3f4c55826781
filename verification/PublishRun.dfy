/** A whole Publish call of internal/publish/service.go, run without interference, as a function of the stores
    it finds, the ids and clock readings it will draw, and the answers of the adapters. The methods of class
    PublishService.Service are proved against it. */
module PublishRun {
  import opened Contracts
  import opened Keys
  import opened Policy
  import opened Retry
  import PT = PublishTables

  /** What is fixed during a call: the streams of drawn ids and clock readings, and the registered adapters. */
  datatype Environment = Environment(ids: nat -> string, readings: nat -> int, scripts: map<string, Script>)

  /** Everything a call can change. */
  datatype World = World(
    contents: PT.ContentTable,
    table: PT.TaskTable,
    attempts: PT.AttemptTable,
    posts: PT.PostTable,
    leases: PT.LeaseTable,
    drawn: nat,                   // ids drawn so far
    ticks: nat,                   // clock readings taken so far
    talks: map<string, Talk>)     // calls received by each adapter

  /** The entry of one platform in the answer. */
  datatype TaskStatus = TaskStatus(
    taskID: string,
    platform: string,
    status: PublishTaskStatus,
    postID: string,
    url: string,
    error: PT.Message)

  function Unexplained(platform: string, error: PT.Message): TaskStatus {
    TaskStatus("", platform, PublishTaskStatus.Failed, "", "", error)
  }

  /** The entry for a task that is already there. */
  function Existing(t: PT.TaskTable, contentID: string, platform: string, otherwise: PT.Message): TaskStatus {
    match PT.LookUpTask(t, contentID, platform)
    case Ok(task) => TaskStatus(task.id, platform, task.status, "", "", task.error)
    case Err(_) => Unexplained(platform, otherwise)
  }

  /** The entry for a task that was executed. */
  function Executed(id: string, platform: string, r: RetryResult): TaskStatus {
    match r.result
    case Some(result) => TaskStatus(id, platform, r.status, result.postID, result.url, PT.NoMessage)
    case None => TaskStatus(id, platform, r.status, "", "", r.error)
  }

  predicate Granted(env: Environment, w: World, combo: string) {
    PT.ClaimGranted(w.leases, TaskKeyOf(combo), env.readings(w.ticks))
  }

  function TaskKeyOf(combo: string): string {
    PT.TaskKey(combo)
  }

  /** The lease table and the clock after claiming the key of a pair. */
  function Claimed(env: Environment, w: World, combo: string): World {
    var held := TaskKeyOf(combo) in w.leases;
    w.(leases := PT.Claim(w.leases, TaskKeyOf(combo), combo, PT.TASK_TTL, env.readings(w.ticks),
                          env.readings(w.ticks + (if held then 1 else 0))),
       ticks := w.ticks + (if held && Granted(env, w, combo) then 2 else 1))
  }

  /** A stored task, executed to its end. */
  function Finished(env: Environment, w: World, id: string, row: PT.Task, platform: string): World
    requires platform in env.scripts && platform in w.talks
  {
    var from, script, max := w.talks[platform], env.scripts[platform], row.policy.maxRetries;
    var n := AttemptCount(script, from, max);
    w.(table := WithRow(w.table, RowAfter(row, script, from, max, n), id),
       attempts := RecordsAfter(w.attempts, id, env.ids, w.drawn, script, from, n),
       posts := PostsAfter(w.posts, id, platform, env.ids, w.drawn, script, from, n),
       drawn := DrawsAfter(w.posts, id, w.drawn, script, from, n),
       talks := w.talks[platform := TalkAfter(script, from, n)])
  }

  /** The next id drawn for a new task. */
  function Created(env: Environment, w: World, contentID: string, platform: string): World {
    w.(table := PT.CreateTask(w.table, contentID, platform, env.ids(w.drawn)), drawn := w.drawn + 1)
  }

  lemma CreatedRow(t: PT.TaskTable, contentID: string, platform: string, id: string)
    ensures var t' := PT.CreateTask(t, contentID, platform, id);
            && (PT.TaskExists(t, contentID, platform) ==> t' == t)
            && (!PT.TaskExists(t, contentID, platform) ==>
                id in t'.tasks && t'.tasks[id] == PT.NewTask(id, contentID, platform))
            && PT.NewTask(id, contentID, platform).id == id
            && PT.NewTask(id, contentID, platform).platform == platform
            && PT.NewTask(id, contentID, platform).policy == DefaultRetryPolicy()
  {
  }

  /** A new task, executed to its end. */
  function Ran(env: Environment, w: World, contentID: string, platform: string): World
    requires platform in env.scripts && platform in w.talks
  {
    var id := env.ids(w.drawn);
    Finished(env, Created(env, w, contentID, platform), id, PT.NewTask(id, contentID, platform), platform)
  }

  /** The verdict of that execution. */
  function RanTold(env: Environment, w: World, platform: string): RetryResult
    requires platform in env.scripts && platform in w.talks
  {
    Told(env.scripts[platform], w.talks[platform], DefaultRetryPolicy().maxRetries)
  }

  predicate Registered(env: Environment, w: World) {
    w.talks.Keys == env.scripts.Keys
  }

  /** One platform of a call. */
  function PlatformWorld(env: Environment, w: World, contentID: string, platform: string): (w': World)
    requires Registered(env, w)
    ensures Registered(env, w') && w'.contents == w.contents
  {
    if platform !in env.scripts then w
    else
      var claimed := Claimed(env, w, Combo(contentID, platform));
      if !Granted(env, w, Combo(contentID, platform)) || PT.TaskExists(w.table, contentID, platform) then claimed
      else Ran(env, claimed, contentID, platform)
  }

  function PlatformEntry(env: Environment, w: World, contentID: string, platform: string): TaskStatus
    requires Registered(env, w)
  {
    if platform !in env.scripts then Unexplained(platform, PT.PlatformNotFound(platform))
    else if !Granted(env, w, Combo(contentID, platform)) then Existing(w.table, contentID, platform, PT.LookupFailed)
    else if PT.TaskExists(w.table, contentID, platform) then Existing(w.table, contentID, platform, PT.CreateFailed)
    else Executed(env.ids(w.drawn), platform, RanTold(env, w, platform))
  }

  /** The platforms one after the other. */
  function PlatformsWorld(env: Environment, w: World, contentID: string, platforms: seq<string>): (w': World)
    requires Registered(env, w)
    ensures Registered(env, w') && w'.contents == w.contents
  {
    if platforms == [] then w
    else
      var k := |platforms| - 1;
      PlatformWorld(env, PlatformsWorld(env, w, contentID, platforms[..k]), contentID, platforms[k])
  }

  function PlatformsEntries(env: Environment, w: World, contentID: string,
                            platforms: seq<string>): (entries: seq<TaskStatus>)
    requires Registered(env, w)
    ensures |entries| == |platforms|
  {
    if platforms == [] then []
    else
      var k := |platforms| - 1;
      PlatformsEntries(env, w, contentID, platforms[..k])
      + [PlatformEntry(env, PlatformsWorld(env, w, contentID, platforms[..k]), contentID, platforms[k])]
  }

  /** Re-read, compare, and write without a version. */
  predicate CanTransition(t: PT.ContentTable, id: string, from: ContentStatus, to: ContentStatus) {
    id in t && t[id].content.status == from && from.CanTransitionTo(to)
  }

  function Transitioned(t: PT.ContentTable, id: string, from: ContentStatus, to: ContentStatus): PT.ContentTable {
    if CanTransition(t, id, from, to) then PT.UpdateContent(t, id, to, 0) else t
  }

  /** The content is there and may start publishing. */
  predicate Publishable(t: PT.ContentTable, id: string) {
    id in t && t[id].content.status.CanTransitionTo(Publishing)
  }

  function Statuses(entries: seq<TaskStatus>): seq<PublishTaskStatus> {
    seq(|entries|, i requires 0 <= i < |entries| => entries[i].status)
  }

  /** The stores while the platforms are being worked on. */
  function Locked(w: World, id: string): World
    requires Publishable(w.contents, id)
  {
    w.(contents := PT.UpdateContent(w.contents, id, Publishing, 0))
  }

  datatype Refusal = ContentNotFound | NotPublishable | NotLocked
  datatype Answer = Declined(reason: Refusal) | Answered(status: ContentStatus, tasks: seq<TaskStatus>)

  function PublishedWorld(env: Environment, w: World, id: string, platforms: seq<string>): (w': World)
    requires Registered(env, w)
    ensures Registered(env, w')
  {
    if !Publishable(w.contents, id) then w
    else
      var done := PlatformsWorld(env, Locked(w, id), id, platforms);
      var entries := PlatformsEntries(env, Locked(w, id), id, platforms);
      done.(contents := Transitioned(done.contents, id, Publishing, PT.AggregateStatus(Statuses(entries))))
  }

  function PublishedAnswer(env: Environment, w: World, id: string, platforms: seq<string>): Answer
    requires Registered(env, w)
  {
    if id !in w.contents then Declined(ContentNotFound)
    else if !Publishable(w.contents, id) then Declined(NotPublishable)
    else
      var entries := PlatformsEntries(env, Locked(w, id), id, platforms);
      Answered(PT.AggregateStatus(Statuses(entries)), entries)
  }
}
