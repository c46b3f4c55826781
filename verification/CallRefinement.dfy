/** A whole call of the step machine that moves alone, with the clock, the draws and the adapters of an environment,
    leaves the stores of module PublishRun's whole call in the same environment and reports its entries. */
module CallRefinement {
  import opened Contracts
  import opened Keys
  import opened PublishTables
  import opened Protocol
  import opened PublishStores
  import PT = PublishTables
  import Loop = ProtocolRefinement
  import R = Retry
  import BigStep = PublishRun
  import Whole = PublishTheorems
  import Theorems = ProtocolTheorems

  // ----- A call fed by an environment -----

  /** How far an environment has been used: ids drawn, clock readings taken, and calls to each adapter. */
  datatype Cursor = Cursor(drawn: nat, ticks: nat, talks: map<string, R.Talk>)

  function CursorOf(w: BigStep.World): Cursor {
    Cursor(w.drawn, w.ticks, w.talks)
  }

  /** A step of the retry loop gets the id and the reply of the environment wherever it uses them. */
  predicate RunFed(env: BigStep.Environment, cur: Cursor, platform: string, at: RunAt, id: string, reply: Reply) {
    platform in env.scripts && platform in cur.talks &&
    var script, talk := env.scripts[platform], cur.talks[platform];
    match at
    case OpenAttempt => id == env.ids(cur.drawn)
    case RecordPost(_) => id == env.ids(cur.drawn)
    case Validate => reply == Loop.CheckReply(script.validate(talk.validated))
    case Upload => reply == Loop.CheckReply(script.upload(talk.uploaded))
    case Publish => reply == Loop.PublishReply(script.publish(talk.published))
    case _ => true
  }

  function Drew(cur: Cursor): Cursor {
    cur.(drawn := cur.drawn + 1)
  }

  function Talked(cur: Cursor, platform: string, talk: R.Talk): Cursor {
    cur.(talks := cur.talks[platform := talk])
  }

  /** What a step of the retry loop uses up. A post that is there already needs no id. */
  function RunAdvance(cur: Cursor, platform: string, w: Work, run: Run): Cursor {
    if platform !in cur.talks then cur
    else
      var talk := cur.talks[platform];
      match run.at
      case OpenAttempt => Drew(cur)
      case RecordPost(_) => if run.taskID in w.posts then cur else Drew(cur)
      case Validate => Talked(cur, platform, talk.(validated := talk.validated + 1))
      case Upload => Talked(cur, platform, talk.(uploaded := talk.uploaded + 1))
      case Publish => Talked(cur, platform, talk.(published := talk.published + 1))
      case _ => cur
  }

  predicate Held(s: State, c: Call) {
    TaskKey(ComboOf(c)) in s.leases
  }

  /** The step is a move of this call, and what it takes from outside is the environment's: the readings of a claim,
      the id of a task, and the ids and replies of the retry loop. What a move does not use is left open, except that
      the clock does not pass the next reading. */
  predicate FedStep(env: BigStep.Environment, cur: Cursor, s: State, step: Step, pid: nat) {
    step.Move? && step.pid == pid && Enabled(s, step) &&
    var c := s.calls[pid];
    match c.at
    case ClaimKey =>
      step.now == env.readings(cur.ticks) && step.later == env.readings(cur.ticks + (if Held(s, c) then 1 else 0))
    case MakeTask => step.later <= env.readings(cur.ticks) && step.id == env.ids(cur.drawn)
    case Running(run) =>
      step.later <= env.readings(cur.ticks) && RunFed(env, cur, Platform(c), run.at, step.id, step.reply)
    case _ => step.later <= env.readings(cur.ticks)
  }

  /** What the next move of the call uses up. */
  function Advance(env: BigStep.Environment, cur: Cursor, s: State, pid: nat): Cursor {
    if pid !in s.calls then cur
    else
      var c := s.calls[pid];
      match c.at
      case ClaimKey =>
        var granted := ClaimGranted(s.leases, TaskKey(ComboOf(c)), env.readings(cur.ticks));
        cur.(ticks := cur.ticks + (if Held(s, c) && granted then 2 else 1))
      case MakeTask => if TaskExists(s.work.table, c.contentID, Platform(c)) then cur else Drew(cur)
      case Running(run) => RunAdvance(cur, Platform(c), s.work, run)
      case _ => cur
  }

  function CursorAfter(env: BigStep.Environment, cur: Cursor, s: State, steps: seq<Step>, pid: nat): Cursor {
    if steps == [] then cur
    else
      var before := steps[..|steps| - 1];
      Advance(env, CursorAfter(env, cur, s, before, pid), RunFrom(s, before), pid)
  }

  /** Only this call moves, and every move is fed by the environment. */
  predicate Fed(env: BigStep.Environment, cur: Cursor, s: State, steps: seq<Step>, pid: nat) {
    steps == [] ||
    (var before := steps[..|steps| - 1];
     && Fed(env, cur, s, before, pid)
     && FedStep(env, CursorAfter(env, cur, s, before, pid), RunFrom(s, before), steps[|steps| - 1], pid))
  }

  /** Fed by the environment from one cursor to another, the steps lead from one state to another. */
  predicate Leads(env: BigStep.Environment, pid: nat, cur: Cursor, s: State, steps: seq<Step>, cur': Cursor,
                  s': State) {
    Fed(env, cur, s, steps, pid) && CursorAfter(env, cur, s, steps, pid) == cur' && RunFrom(s, steps) == s'
  }

  lemma {:induction false} FedInParts(env: BigStep.Environment, pid: nat, cur: Cursor, s: State, a: seq<Step>,
                                      b: seq<Step>)
    ensures RunFrom(s, a + b) == RunFrom(RunFrom(s, a), b)
    ensures CursorAfter(env, cur, s, a + b, pid)
            == CursorAfter(env, CursorAfter(env, cur, s, a, pid), RunFrom(s, a), b, pid)
    ensures Fed(env, cur, s, a + b, pid)
       <==> Fed(env, cur, s, a, pid) && Fed(env, CursorAfter(env, cur, s, a, pid), RunFrom(s, a), b, pid)
  {
    hide FedStep, Advance, Next;
    if b == [] {
      assert a + b == a;
    } else {
      var k := |b| - 1;
      assert (a + b)[..|a + b| - 1] == a + b[..k] && (a + b)[|a + b| - 1] == b[k];
      FedInParts(env, pid, cur, s, a, b[..k]);
    }
  }

  lemma Then(env: BigStep.Environment, pid: nat, cur: Cursor, s: State, a: seq<Step>, cur1: Cursor, s1: State,
             b: seq<Step>, cur2: Cursor, s2: State)
    requires Leads(env, pid, cur, s, a, cur1, s1) && Leads(env, pid, cur1, s1, b, cur2, s2)
    ensures Leads(env, pid, cur, s, a + b, cur2, s2)
  {
    hide Fed, CursorAfter, RunFrom;
    FedInParts(env, pid, cur, s, a, b);
  }

  lemma NoSteps(env: BigStep.Environment, pid: nat, cur: Cursor, s: State)
    ensures Leads(env, pid, cur, s, [], cur, s)
  {
  }

  lemma OneMove(env: BigStep.Environment, pid: nat, cur: Cursor, s: State, step: Step)
    requires FedStep(env, cur, s, step, pid)
    ensures Leads(env, pid, cur, s, [step], Advance(env, cur, s, pid), Next(s, step))
  {
    hide FedStep, Advance, Next;
    assert [step][..0] == [];
    assert Fed(env, cur, s, [], pid) && CursorAfter(env, cur, s, [], pid) == cur && RunFrom(s, []) == s;
  }

  /** These moves draw no id, look at no clock and ask nobody. */
  predicate Plain(at: Protocol.At) {
    at.Fetch? || at.Recheck? || at.TakeLock? || at.NextPlatform? || at.LookUp? || at.FinalCheck? || at.FinalWrite?
  }

  function PlainStep(s: State, pid: nat): State
    requires pid in s.calls
  {
    MoveStep(s, pid, s.now, s.now, "", Loop.Nothing())
  }

  lemma FreshID(s: State) returns (id: string)
    ensures id !in s.work.table.tasks && id !in s.work.attempts
  {
    id := Theorems.SomeFreshID(s.work.table.tasks.Keys + s.work.attempts.Keys);
  }

  lemma PlainMove(env: BigStep.Environment, pid: nat, cur: Cursor, s: State) returns (steps: seq<Step>)
    requires pid in s.calls && Plain(s.calls[pid].at) && s.now <= env.readings(cur.ticks)
    ensures Leads(env, pid, cur, s, steps, cur, PlainStep(s, pid))
  {
    var id := FreshID(s);
    var step := Move(pid, s.now, s.now, id, Loop.Nothing());
    steps := [step];
    assert s.(now := s.now) == s;
    IdDoesNotMatter(s, pid, id);
    hide MoveStep, PlainStep, Leads;
    OneMove(env, pid, cur, s, step);
  }

  lemma IdDoesNotMatter(s: State, pid: nat, id: string)
    requires pid in s.calls && Plain(s.calls[pid].at)
    ensures MoveStep(s, pid, s.now, s.now, id, Loop.Nothing()) == PlainStep(s, pid)
  {
    hide FetchStep, RecheckStep, TakeLockStep, NextPlatformStep, LookUpStep, FinalCheckStep, FinalWriteStep;
  }

  // ----- The retry loop as moves -----

  /** The input is what the environment feeds to the next step of the loop, and an id that is drawn is new. */
  predicate InputFed(env: BigStep.Environment, cur: Cursor, platform: string, o: Outcome, input: Loop.Input) {
    o.Continue? ==>
      && RunFed(env, cur, platform, o.run.at, input.id, input.reply)
      && (o.run.at.OpenAttempt? || o.run.at.RecordPost? ==>
            input.id !in o.work.table.tasks && input.id !in o.work.attempts)
  }

  function InputAdvance(cur: Cursor, platform: string, o: Outcome): Cursor {
    if o.Continue? then RunAdvance(cur, platform, o.work, o.run) else cur
  }

  predicate InputsFed(env: BigStep.Environment, cur: Cursor, o: Outcome, contentID: string, platform: string,
                      inputs: seq<Loop.Input>)
    decreases inputs
  {
    inputs == [] ||
    (&& InputFed(env, cur, platform, o, inputs[0])
     && InputsFed(env, InputAdvance(cur, platform, o), Loop.Step(o, contentID, platform, inputs[0]),
                  contentID, platform, inputs[1..]))
  }

  function InputsCursor(cur: Cursor, o: Outcome, contentID: string, platform: string, inputs: seq<Loop.Input>): Cursor
    decreases inputs
  {
    if inputs == [] then cur
    else InputsCursor(InputAdvance(cur, platform, o), Loop.Step(o, contentID, platform, inputs[0]),
                      contentID, platform, inputs[1..])
  }

  /** The inputs are fed from one cursor to another. */
  predicate Feeds(env: BigStep.Environment, cur: Cursor, o: Outcome, contentID: string, platform: string,
                  inputs: seq<Loop.Input>, cur': Cursor) {
    InputsFed(env, cur, o, contentID, platform, inputs) && InputsCursor(cur, o, contentID, platform, inputs) == cur'
  }

  lemma {:induction false} FeedsInParts(env: BigStep.Environment, cur: Cursor, o: Outcome, contentID: string,
                                        platform: string,
                                        a: seq<Loop.Input>, cur1: Cursor, b: seq<Loop.Input>, cur2: Cursor)
    requires Feeds(env, cur, o, contentID, platform, a, cur1)
    requires Feeds(env, cur1, Loop.Take(o, contentID, platform, a), contentID, platform, b, cur2)
    ensures Feeds(env, cur, o, contentID, platform, a + b, cur2)
    decreases a
  {
    hide Loop.Step, InputFed, InputAdvance;
    if a == [] {
      assert a + b == b;
    } else {
      assert (a + b)[1..] == a[1..] + b;
      FeedsInParts(env, InputAdvance(cur, platform, o), Loop.Step(o, contentID, platform, a[0]), contentID, platform,
                   a[1..], cur1, b, cur2);
    }
  }

  lemma FeedsFew(env: BigStep.Environment, cur: Cursor, o: Outcome, contentID: string, platform: string,
                 a: Loop.Input, b: Loop.Input, c: Loop.Input)
    ensures var o1 := Loop.Step(o, contentID, platform, a);
            var o2 := Loop.Step(o1, contentID, platform, b);
            var cur1 := InputAdvance(cur, platform, o);
            var cur2 := InputAdvance(cur1, platform, o1);
            var cur3 := InputAdvance(cur2, platform, o2);
            && (InputFed(env, cur, platform, o, a) ==> Feeds(env, cur, o, contentID, platform, [a], cur1))
            && (InputFed(env, cur, platform, o, a) && InputFed(env, cur1, platform, o1, b) ==>
                  Feeds(env, cur, o, contentID, platform, [a, b], cur2))
            && (InputFed(env, cur, platform, o, a) && InputFed(env, cur1, platform, o1, b) &&
                InputFed(env, cur2, platform, o2, c) ==>
                  Feeds(env, cur, o, contentID, platform, [a, b, c], cur3))
  {
    hide Loop.Step, InputFed, InputAdvance;
    var o1 := Loop.Step(o, contentID, platform, a);
    var o2 := Loop.Step(o1, contentID, platform, b);
    var cur1 := InputAdvance(cur, platform, o);
    var cur2 := InputAdvance(cur1, platform, o1);
    var cur3 := InputAdvance(cur2, platform, o2);
    assert [a][1..] == [] && [a, b][1..] == [b] && [a, b, c][1..] == [b, c] && [b, c][1..] == [c];
    assert [b][1..] == [] && [c][1..] == [];
    FeedsOne(env, cur, o, contentID, platform, a);
    FeedsOne(env, cur1, o1, contentID, platform, b);
    FeedsOne(env, cur2, o2, contentID, platform, c);
    assert InputFed(env, cur1, platform, o1, b) && InputFed(env, cur2, platform, o2, c) ==>
        Feeds(env, cur1, o1, contentID, platform, [b, c], cur3);
  }

  lemma FeedsOne(env: BigStep.Environment, cur: Cursor, o: Outcome, contentID: string, platform: string, a: Loop.Input)
    ensures InputFed(env, cur, platform, o, a) ==>
              Feeds(env, cur, o, contentID, platform, [a], InputAdvance(cur, platform, o))
  {
    hide Loop.Step, InputFed, InputAdvance;
    var o1, cur1 := Loop.Step(o, contentID, platform, a), InputAdvance(cur, platform, o);
    assert [a][1..] == [];
    assert InputsFed(env, cur1, o1, contentID, platform, []) && InputsCursor(cur1, o1, contentID, platform, []) == cur1;
  }

  lemma {:induction false} DoneStays(env: BigStep.Environment, cur: Cursor, o: Outcome, contentID: string,
                                     platform: string, inputs: seq<Loop.Input>)
    requires o.Done?
    ensures Loop.Take(o, contentID, platform, inputs) == o && InputsCursor(cur, o, contentID, platform, inputs) == cur
    decreases inputs
  {
    if inputs != [] { DoneStays(env, cur, o, contentID, platform, inputs[1..]); }
  }

  /** The steps that do not draw an id do not depend on it, and those that ask nobody do not depend on a reply. */
  lemma UnusedInputs(w: Work, contentID: string, platform: string, run: Run, id: string, id': string, reply: Reply,
                     reply': Reply)
    ensures !run.at.OpenAttempt? && !run.at.RecordPost? ==>
              RunStep(w, contentID, platform, run, id, reply) == RunStep(w, contentID, platform, run, id', reply)
    ensures !run.at.Validate? && !run.at.Upload? && !run.at.Publish? ==>
              RunStep(w, contentID, platform, run, id, reply) == RunStep(w, contentID, platform, run, id, reply')
  {
    hide WriteTask, CloseAttempt, Happened, OpenAttemptFor, CreatePost;
  }

  lemma RunningMove(s: State, pid: nat, c: Call, run: Run, id: string, reply: Reply)
    requires pid in s.calls && s.calls[pid] == c.(at := Running(run))
    ensures MoveStep(s, pid, s.now, s.now, id, reply)
         == RunningStep(s, pid, c, RunStep(s.work, c.contentID, Platform(c), run, id, reply))
  {
    hide RunStep;
    SamePlatform(c, Running(run));
  }

  lemma SamePlatform(c: Call, at: Protocol.At)
    ensures Platform(c.(at := at)) == Platform(c)
  {
  }

  lemma OneRunMove(env: BigStep.Environment, pid: nat, cur: Cursor, s: State, c: Call, o: Outcome, input: Loop.Input)
    returns (steps: seq<Step>)
    requires pid in s.calls && o.Continue? && s.work == o.work && s.calls[pid] == c.(at := Running(o.run))
    requires InputFed(env, cur, Platform(c), o, input) && s.now <= env.readings(cur.ticks)
    ensures Leads(env, pid, cur, s, steps, InputAdvance(cur, Platform(c), o),
                  RunningStep(s, pid, c, Loop.Step(o, c.contentID, Platform(c), input)))
  {
    hide RunStep, MoveStep, Platform, RunningStep, RunAdvance, Leads;
    var unused := FreshID(s);
    var draws := o.run.at.OpenAttempt? || o.run.at.RecordPost?;
    var id := if draws then input.id else unused;
    UnusedInputs(o.work, c.contentID, Platform(c), o.run, id, input.id, input.reply, input.reply);
    var step := Move(pid, s.now, s.now, id, input.reply);
    steps := [step];
    assert s.(now := s.now) == s;
    RunningMove(s, pid, c, o.run, id, input.reply);
    SamePlatform(c, Running(o.run));
    OneMove(env, pid, cur, s, step);
  }

  lemma RunningTwice(s: State, pid: nat, c: Call, o: Outcome, end: Outcome)
    requires pid in s.calls && o.Continue? && end.Done?
    ensures var s1 := RunningStep(s, pid, c, o);
            && pid in s1.calls && s1.work == o.work && s1.calls[pid] == c.(at := Running(o.run)) && s1.now == s.now
            && RunningStep(s1, pid, c, end) == RunningStep(s, pid, c, end)
  {
  }

  lemma SameTicks(cur: Cursor, platform: string, o: Outcome)
    ensures InputAdvance(cur, platform, o).ticks == cur.ticks
  {
  }

  /** The steps of the loop, one move each, from a running call to its next entry. */
  lemma {:induction false} RunMoves(env: BigStep.Environment, pid: nat, cur: Cursor, s: State, c: Call, o: Outcome,
                                    inputs: seq<Loop.Input>, cur': Cursor)
    returns (steps: seq<Step>)
    requires pid in s.calls && o.Continue? && s.work == o.work && s.calls[pid] == c.(at := Running(o.run))
    requires Loop.Take(o, c.contentID, Platform(c), inputs).Done? && s.now <= env.readings(cur.ticks)
    requires Feeds(env, cur, o, c.contentID, Platform(c), inputs, cur')
    ensures Leads(env, pid, cur, s, steps, cur', RunningStep(s, pid, c, Loop.Take(o, c.contentID, Platform(c), inputs)))
    decreases inputs
  {
    hide RunStep, Leads, Platform, RunningStep, InputFed, InputAdvance, Loop.Step;
    var p, end := Platform(c), Loop.Take(o, c.contentID, Platform(c), inputs);
    var o1, cur1 := Loop.Step(o, c.contentID, p, inputs[0]), InputAdvance(cur, p, o);
    var first := OneRunMove(env, pid, cur, s, c, o, inputs[0]);
    if o1.Done? {
      DoneStays(env, cur1, o1, c.contentID, p, inputs[1..]);
      steps := first;
    } else {
      var s1 := RunningStep(s, pid, c, o1);
      RunningTwice(s, pid, c, o1, end);
      SameTicks(cur, p, o);
      var rest := RunMoves(env, pid, cur1, s1, c, o1, inputs[1..], cur');
      Then(env, pid, cur, s, first, cur1, s1, rest, cur', RunningStep(s, pid, c, end));
      steps := first + rest;
    }
  }

  // ----- What the environment feeds to the loop -----

  /** An attempt uses its own id, one more for a new post, and the adapter's next answers. */
  lemma AttemptFeeds(env: BigStep.Environment, cur: Cursor, w: Work, contentID: string, platform: string, run: Run)
    requires run.taskID in w.table.tasks && run.at.Count? && platform in env.scripts && platform in cur.talks
    requires Undrawn(env.ids, cur.drawn, w)
    ensures var script, from := env.scripts[platform], cur.talks[platform];
            Feeds(env, cur, Continue(w, run), contentID, platform,
                  Loop.AttemptInputs(script, from, env.ids(cur.drawn), env.ids(cur.drawn + 1)),
                  AfterAttempt(cur, w.posts, run.taskID, platform, script))
  {
    hide Loop.Take, Loop.Step, Feeds, Loop.Conversation, Loop.Bookkeeping, R.EndOf, R.WithRow, R.Begun, CreateAttempt,
         Loop.AfterTalk, R.TalkAfter, R.PostDraws, Undrawn;
    var script, from := env.scripts[platform], cur.talks[platform];
    var id, postID := env.ids(cur.drawn), env.ids(cur.drawn + 1);
    TwoDraws(env.ids, cur.drawn, w);
    var o, e := Continue(w, run), R.EndOf(script, from, 0);
    var begin, talk := [Loop.Idle(), Loop.Input(id, Loop.Nothing()), Loop.Idle()], Loop.Conversation(script, from);
    BeginFeeds(env, cur, w, contentID, platform, run);
    Loop.Begins(w, contentID, platform, run, id);
    var o1, cur1 := Loop.Take(o, contentID, platform, begin), Drew(cur);
    TalkFeeds(env, cur1, o1, contentID, platform);
    var cur2 := Talked(cur1, platform, R.TalkAfter(script, from, 1));
    FeedsInParts(env, cur, o, contentID, platform, begin, cur1, talk, cur2);
    Loop.TakeInParts(o, contentID, platform, begin, talk);
    Loop.Talks(o1.work, contentID, platform, o1.run, script, from);
    var o2 := Loop.Take(o1, contentID, platform, talk);
    KeysBegun(w.table, w.attempts, run.taskID, run.attempt + 1, id);
    BookkeepingFeeds(env, cur2, o2, contentID, platform, o1.run, e);
    FeedsInParts(env, cur, o, contentID, platform, begin + talk, cur2, Loop.Bookkeeping(e, postID),
                 AfterAttempt(cur, w.posts, run.taskID, platform, script));
  }

  function AfterAttempt(cur: Cursor, posts: PostTable, taskID: string, platform: string, script: R.Script): Cursor
    requires platform in cur.talks
  {
    var from := cur.talks[platform];
    Cursor(cur.drawn + 1 + R.PostDraws(posts, taskID, R.EndOf(script, from, 0)), cur.ticks,
           cur.talks[platform := R.TalkAfter(script, from, 1)])
  }

  lemma KeysBegun(t: TaskTable, attempts: AttemptTable, id: string, number: int, attemptID: string)
    requires id in t.tasks
    ensures R.WithRow(t, R.Begun(t.tasks[id]), id).tasks.Keys == t.tasks.Keys
    ensures CreateAttempt(attempts, id, number, attemptID).Keys == attempts.Keys + {attemptID}
  {
  }

  lemma BeginFeeds(env: BigStep.Environment, cur: Cursor, w: Work, contentID: string, platform: string, run: Run)
    requires run.at.Count? && platform in env.scripts && platform in cur.talks
    requires env.ids(cur.drawn) !in w.table.tasks && env.ids(cur.drawn) !in w.attempts
    ensures Feeds(env, cur, Continue(w, run), contentID, platform,
                  [Loop.Idle(), Loop.Input(env.ids(cur.drawn), Loop.Nothing()), Loop.Idle()], Drew(cur))
  {
    FeedsFew(env, cur, Continue(w, run), contentID, platform,
             Loop.Idle(), Loop.Input(env.ids(cur.drawn), Loop.Nothing()), Loop.Idle());
    hide Feeds;
  }

  lemma TalkFeeds(env: BigStep.Environment, cur: Cursor, o: Outcome, contentID: string, platform: string)
    requires o.Continue? && o.run.at.Validate? && platform in env.scripts && platform in cur.talks
    ensures var script, from := env.scripts[platform], cur.talks[platform];
            Feeds(env, cur, o, contentID, platform, Loop.Conversation(script, from),
                  Talked(cur, platform, R.TalkAfter(script, from, 1)))
  {
    var script, from := env.scripts[platform], cur.talks[platform];
    var validated := Loop.Input("", Loop.CheckReply(script.validate(from.validated)));
    var uploaded := Loop.Input("", Loop.CheckReply(script.upload(from.uploaded)));
    var published := Loop.Input("", Loop.PublishReply(script.publish(from.published)));
    FeedsFew(env, cur, o, contentID, platform, validated, uploaded, published);
    hide Feeds;
  }

  lemma BookkeepingFeeds(env: BigStep.Environment, cur: Cursor, o: Outcome, contentID: string, platform: string,
                         run: Run, e: R.AttemptEnd)
    requires o.Continue? && o.run == Loop.AfterTalk(run, e) && platform in env.scripts && platform in cur.talks
    requires env.ids(cur.drawn) !in o.work.table.tasks && env.ids(cur.drawn) !in o.work.attempts
    ensures Feeds(env, cur, o, contentID, platform, Loop.Bookkeeping(e, env.ids(cur.drawn)),
                  cur.(drawn := cur.drawn + R.PostDraws(o.work.posts, run.taskID, e)))
  {
    if e.Posted? {
      FeedsFew(env, cur, o, contentID, platform, Loop.Idle(), Loop.Idle(),
               Loop.Input(env.ids(cur.drawn), Loop.Nothing()));
    } else {
      FeedsFew(env, cur, o, contentID, platform, Loop.Idle(), Loop.Idle(), Loop.Idle());
    }
    hide Feeds;
  }

  /** An attempt that goes on keeps the tasks and adds its own id to the attempts. */
  lemma AttemptKeys(w: Work, platform: string, run: Run, e: R.AttemptEnd, id: string, postID: string, o: Outcome)
    requires run.taskID in w.table.tasks && Loop.AttemptDone(o, w, platform, run, e, id, postID)
    requires R.GoesOn(e, run.attempt, w.table.tasks[run.taskID].policy.maxRetries)
    ensures o.Continue? && o.run == run.(attemptID := id, attempt := run.attempt + 1, at := Count)
    ensures o.work.table.tasks.Keys == w.table.tasks.Keys && o.work.attempts.Keys == w.attempts.Keys + {id}
    ensures o.work.posts == w.posts
    ensures o.work.table.tasks[run.taskID].policy == w.table.tasks[run.taskID].policy
  {
    var row := w.table.tasks[run.taskID];
    Loop.EndedPolicy(row, e, row.policy.maxRetries);
    hide R.Ended, R.GoesOn, R.Record, Loop.LeftWith;
  }

  /** The draws from `next` on are new. */
  ghost predicate Undrawn(ids: nat -> string, next: nat, w: Work) {
    DistinctIDs(ids) && Unused(ids, next, w.table.tasks.Keys) && Unused(ids, next, w.attempts.Keys)
  }

  lemma TwoDraws(ids: nat -> string, next: nat, w: Work)
    requires Undrawn(ids, next, w)
    ensures ids(next) != ids(next + 1) && ids(next) !in w.table.tasks && ids(next) !in w.attempts
    ensures ids(next + 1) !in w.table.tasks && ids(next + 1) !in w.attempts
  {
    assert ids(next) == ids(next + 1) ==> next == next + 1;
  }

  lemma DrewOne(ids: nat -> string, next: nat, w: Work, w': Work)
    requires Undrawn(ids, next, w)
    requires w'.table.tasks.Keys == w.table.tasks.Keys && w'.attempts.Keys == w.attempts.Keys + {ids(next)}
    ensures Undrawn(ids, next + 1, w')
  {
    forall i: nat | i >= next + 1 ensures ids(i) !in w'.attempts.Keys { assert i != next; }
  }

  /** Where the environment stands when attempt j begins, and after the loop. */
  function LoopCursor(cur: Cursor, platform: string, from: R.Talk, first: nat, j: nat): Cursor {
    Cursor(first + j, cur.ticks, cur.talks[platform := Loop.TalkAt(from, j)])
  }

  function LoopEnd(cur: Cursor, posts: PostTable, taskID: string, platform: string, script: R.Script, from: R.Talk,
                   first: nat, n: nat): Cursor {
    Cursor(R.DrawsAfter(posts, taskID, first, script, from, n), cur.ticks,
           cur.talks[platform := R.TalkAfter(script, from, n)])
  }

  /** One turn of the loop, as seen from the environment. */
  lemma TurnCursor(cur: Cursor, posts: PostTable, taskID: string, platform: string, script: R.Script, from: R.Talk,
                   first: nat, max: int, j: nat)
    requires j <= max && R.AttemptCount(script, from, max) == R.Attempts(script, from, max, j)
    ensures var now := LoopCursor(cur, platform, from, first, j);
            var next := AfterAttempt(now, posts, taskID, platform, script);
            if R.GoesOn(R.EndOf(script, from, j), j, max) then
              && next == LoopCursor(cur, platform, from, first, j + 1)
              && R.AttemptCount(script, from, max) == R.Attempts(script, from, max, j + 1)
            else next == LoopEnd(cur, posts, taskID, platform, script, from, first, R.AttemptCount(script, from, max))
  {
    hide R.EndOf, R.Attempts, R.AttemptCount, R.TalkAfter, R.PostsAfter, R.RecordsAfter, R.PostsWith, R.Told, R.Verdict;
    R.LoopTurns(script, from, max, j);
    R.TalkTurns(script, from, j);
    R.LoopStores(map[], posts, taskID, platform, (i: nat) => "", first, script, from, max, j);
  }

  lemma {:induction false} LoopFeeds(env: BigStep.Environment, cur: Cursor, w: Work, contentID: string,
                                     platform: string, run: Run, from: R.Talk, first: nat, max: int)
    requires run.at.Count? && run.taskID in w.table.tasks && w.table.tasks[run.taskID].policy.maxRetries == max
    requires platform in env.scripts && run.attempt <= max && Undrawn(env.ids, first + run.attempt, w)
    requires R.AttemptCount(env.scripts[platform], from, max)
             == R.Attempts(env.scripts[platform], from, max, run.attempt)
    ensures var script := env.scripts[platform];
            Feeds(env, LoopCursor(cur, platform, from, first, run.attempt), Continue(w, run), contentID, platform,
                  Loop.LoopInputs(script, from, env.ids, first, max, run.attempt),
                  LoopEnd(cur, w.posts, run.taskID, platform, script, from, first, R.AttemptCount(script, from, max)))
    decreases max - run.attempt
  {
    hide Feeds, Loop.Take, Loop.AttemptDone, Loop.AttemptInputs, Undrawn, R.EndOf, R.GoesOn, R.Retries, R.TalkAfter,
         R.AttemptCount, R.Attempts, AfterAttempt, LoopEnd;
    var script, j, o := env.scripts[platform], run.attempt, Continue(w, run);
    var now := LoopCursor(cur, platform, from, first, j);
    var id, postID := env.ids(first + j), env.ids(first + j + 1);
    var inputs := Loop.AttemptInputs(script, Loop.TalkAt(from, j), id, postID);
    AttemptFeeds(env, now, w, contentID, platform, run);
    TurnCursor(cur, w.posts, run.taskID, platform, script, from, first, max, j);
    if R.GoesOn(R.EndOf(script, from, j), j, max) {
      Loop.GoingOnIsAllowed(R.EndOf(script, from, j), j, max);
      Loop.OneAttempt(w, contentID, platform, run, script, Loop.TalkAt(from, j), id, postID);
      R.TalkTurns(script, from, j);
      TwoDraws(env.ids, first + j, w);
      var o1 := Loop.Take(o, contentID, platform, inputs);
      AttemptKeys(w, platform, run, R.EndOf(script, from, j), id, postID, o1);
      DrewOne(env.ids, first + j, w, o1.work);
      LoopFeeds(env, cur, o1.work, contentID, platform, o1.run, from, first, max);
      FeedsInParts(env, now, o, contentID, platform, inputs, LoopCursor(cur, platform, from, first, j + 1),
                   Loop.LoopInputs(script, from, env.ids, first, max, j + 1),
                   LoopEnd(cur, w.posts, run.taskID, platform, script, from, first, R.AttemptCount(script, from, max)));
    } else {
      assert inputs + [] == inputs;
    }
  }

  // ----- The two layers side by side -----

  /** The state of the machine shows the stores of the world, the same platforms are registered, and the clock has
      not passed the next reading. */
  ghost predicate Mirrors(env: BigStep.Environment, w: BigStep.World, s: State) {
    && s.contents == w.contents && s.leases == w.leases
    && s.work.table == w.table && s.work.attempts == w.attempts && s.work.posts == w.posts
    && s.registered == env.scripts.Keys && s.now <= env.readings(w.ticks)
  }

  /** Clock readings never go back. */
  ghost predicate Steady(env: BigStep.Environment) {
    forall i: nat, j: nat :: i <= j ==> env.readings(i) <= env.readings(j)
  }

  /** The stores are sound, and so are the attempts' ids. */
  ghost predicate Good(env: BigStep.Environment, w: BigStep.World) {
    Whole.Sound(env, w) && Unused(env.ids, w.drawn, w.attempts.Keys)
  }

  /** The report tells what the entry tells; only the post's id and address are not reported. */
  predicate Tells(r: Report, e: BigStep.TaskStatus) {
    r.taskID == e.taskID && r.status == e.status && r.error == e.error
  }

  /** Every id still to be drawn is new. */
  ghost predicate DrawsNew(env: BigStep.Environment, w: BigStep.World) {
    && DistinctIDs(env.ids)
    && Unused(env.ids, w.drawn, w.table.tasks.Keys) && Unused(env.ids, w.drawn, w.attempts.Keys)
  }

  lemma GoodParts(env: BigStep.Environment, w: BigStep.World)
    requires Good(env, w)
    ensures BigStep.Registered(env, w) && PT.Indexed(w.table) && Whole.Sound(env, w) && DrawsNew(env, w)
  {
  }

  lemma NextDraw(env: BigStep.Environment, w: BigStep.World)
    requires DrawsNew(env, w)
    ensures env.ids(w.drawn) !in w.table.tasks && env.ids(w.drawn) !in w.attempts
    ensures forall w': BigStep.World :: w' == w.(leases := w'.leases, ticks := w'.ticks) ==> DrawsNew(env, w')
  {
  }

  // ----- One platform -----

  predicate Stands(s: State, pid: nat, c: Call) {
    pid in s.calls && s.calls[pid] == c
  }

  /** A look-up that finds or misses, as an entry. */
  lemma LookUpMove(s: State, pid: nat, c: Call, env: BigStep.Environment, w: BigStep.World, otherwise: PT.Message)
    returns (steps: seq<Step>, s': State, r: Report)
    requires Stands(s, pid, c.(at := LookUp)) && Mirrors(env, w, s)
    requires otherwise == LookupFailed || PT.LookUpTask(w.table, c.contentID, Platform(c)).Ok?
    ensures Leads(env, pid, CursorOf(w), s, steps, CursorOf(w), s')
    ensures Mirrors(env, w, s') && Stands(s', pid, Reported(c, r))
    ensures Tells(r, BigStep.Existing(w.table, c.contentID, Platform(c), otherwise))
  {
    hide Leads, PT.LookUpTask;
    steps := PlainMove(env, pid, CursorOf(w), s);
    s' := PlainStep(s, pid);
    var c1 := LookUpStep(s.work.table, s.calls[pid]);
    SamePlatform(c, LookUp);
    assert s' == Put(s, pid, c1);
    r := c1.reports[|c.reports|];
  }

  /** What the moves at ClaimKey and MakeTask are. */
  lemma MovesOfClaim(s: State, pid: nat, now: int, later: int, id: string)
    requires pid in s.calls
    ensures s.calls[pid].at.ClaimKey? ==>
              MoveStep(s, pid, now, later, id, Loop.Nothing()) == ClaimStep(s, pid, s.calls[pid], now, later)
    ensures s.calls[pid].at.MakeTask? ==>
              MoveStep(s, pid, now, later, id, Loop.Nothing()) == MakeTaskStep(s, pid, s.calls[pid], id)
  {
    hide ClaimStep, MakeTaskStep;
  }

  lemma ClaimShows(s: State, pid: nat, c: Call, env: BigStep.Environment, w: BigStep.World, now: int, later: int)
    requires Stands(s, pid, c.(at := ClaimKey)) && Mirrors(env, w, s) && Steady(env)
    requires now == env.readings(w.ticks)
    requires later == env.readings(w.ticks
                                   + (if BigStep.TaskKeyOf(Combo(c.contentID, Platform(c))) in w.leases then 1 else 0))
    ensures var s' := ClaimStep(s.(now := later), pid, s.calls[pid], now, later);
            var combo := Combo(c.contentID, Platform(c));
            && Mirrors(env, BigStep.Claimed(env, w, combo), s')
            && Stands(s', pid, c.(at := if BigStep.Granted(env, w, combo) then MakeTask else LookUp))
  {
    hide PT.Claim, Combo, PT.ClaimGranted, Platform;
    SamePlatform(c, ClaimKey);
    var combo := Combo(c.contentID, Platform(c));
    RefusedClaim(w.leases, BigStep.TaskKeyOf(combo), combo, PT.TASK_TTL, now, later);
  }

  lemma RefusedClaim(t: PT.LeaseTable, key: string, entityID: string, ttl: int, now: int, later: int)
    ensures !PT.ClaimGranted(t, key, now) ==> PT.Claim(t, key, entityID, ttl, now, later) == t
  {
  }

  lemma ClaimMove(s: State, pid: nat, c: Call, env: BigStep.Environment, w: BigStep.World)
    returns (steps: seq<Step>, s': State)
    requires Stands(s, pid, c.(at := ClaimKey)) && Mirrors(env, w, s) && Steady(env) && DrawsNew(env, w)
    ensures var combo := Combo(c.contentID, Platform(c));
            var claimed := BigStep.Claimed(env, w, combo);
            && Leads(env, pid, CursorOf(w), s, steps, CursorOf(claimed), s') && Mirrors(env, claimed, s')
            && Stands(s', pid, c.(at := if BigStep.Granted(env, w, combo) then MakeTask else LookUp))
  {
    hide DrawsNew, PT.Claim, Leads, Combo, MoveStep, ClaimStep, Platform;
    NextDraw(env, w);
    SamePlatform(c, ClaimKey);
    var combo := Combo(c.contentID, Platform(c));
    var now := env.readings(w.ticks);
    var later := env.readings(w.ticks + (if BigStep.TaskKeyOf(combo) in w.leases then 1 else 0));
    var step := Move(pid, now, later, env.ids(w.drawn), Loop.Nothing());
    steps, s' := [step], Next(s, step);
    OneMove(env, pid, CursorOf(w), s, step);
    MovesOfClaim(s.(now := later), pid, now, later, env.ids(w.drawn));
    ClaimShows(s, pid, c, env, w, now, later);
  }

  lemma MakeShows(s: State, pid: nat, c: Call, env: BigStep.Environment, w: BigStep.World)
    requires Stands(s, pid, c.(at := MakeTask)) && Mirrors(env, w, s)
    ensures var id := env.ids(w.drawn);
            var s' := MakeTaskStep(s, pid, s.calls[pid], id);
            if PT.TaskExists(w.table, c.contentID, Platform(c)) then
              Mirrors(env, w, s') && Stands(s', pid, c.(at := LookUp))
            else
              && Mirrors(env, BigStep.Created(env, w, c.contentID, Platform(c)), s')
              && Stands(s', pid, c.(at := Running(Run(id, 0, "", Count))))
  {
    hide PT.CreateTask, PT.TaskExists;
    assert Platform(c.(at := MakeTask)) == Platform(c);
  }

  lemma MakeMove(s: State, pid: nat, c: Call, env: BigStep.Environment, w: BigStep.World)
    returns (steps: seq<Step>, s': State)
    requires Stands(s, pid, c.(at := MakeTask)) && Mirrors(env, w, s) && DrawsNew(env, w)
    ensures var created := BigStep.Created(env, w, c.contentID, Platform(c));
            if PT.TaskExists(w.table, c.contentID, Platform(c)) then
              && Leads(env, pid, CursorOf(w), s, steps, CursorOf(w), s')
              && Mirrors(env, w, s') && Stands(s', pid, c.(at := LookUp))
            else
              && Leads(env, pid, CursorOf(w), s, steps, CursorOf(created), s')
              && Mirrors(env, created, s') && Stands(s', pid, c.(at := Running(Run(env.ids(w.drawn), 0, "", Count))))
  {
    hide DrawsNew, Leads, PT.CreateTask, PT.TaskExists, MoveStep, MakeTaskStep, Platform;
    NextDraw(env, w);
    SamePlatform(c, MakeTask);
    assert s.(now := s.now) == s;
    var step := Move(pid, s.now, s.now, env.ids(w.drawn), Loop.Nothing());
    steps, s' := [step], Next(s, step);
    OneMove(env, pid, CursorOf(w), s, step);
    MovesOfClaim(s, pid, s.now, s.now, env.ids(w.drawn));
    MakeShows(s, pid, c, env, w);
  }

  /** The whole retry loop of a task just made. */
  lemma LoopMoves(s: State, pid: nat, c: Call, env: BigStep.Environment, w: BigStep.World)
    returns (steps: seq<Step>, s': State, r: Report)
    requires DrawsNew(env, w) && Platform(c) in env.scripts && !PT.TaskExists(w.table, c.contentID, Platform(c))
    requires Mirrors(env, BigStep.Created(env, w, c.contentID, Platform(c)), s)
    requires Stands(s, pid, c.(at := Running(Run(env.ids(w.drawn), 0, "", Count))))
    requires BigStep.Registered(env, w)
    ensures var ran := BigStep.Ran(env, w, c.contentID, Platform(c));
            && Leads(env, pid, CursorOf(BigStep.Created(env, w, c.contentID, Platform(c))), s, steps, CursorOf(ran), s')
            && Mirrors(env, ran, s') && Stands(s', pid, Reported(c, r))
            && Tells(r, BigStep.Executed(env.ids(w.drawn), Platform(c), BigStep.RanTold(env, w, Platform(c))))
  {
    hide Leads, Feeds, Loop.Take, R.AttemptCount, R.Attempts, R.RowAfter, R.RecordsAfter, R.PostsAfter, R.TalkAfter,
         R.WithRow, R.DrawsAfter, DrawsNew, Loop.LoopInputs, PT.Claim, R.Told, Undrawn, Platform;
    var id, p := env.ids(w.drawn), Platform(c);
    var script, from, first := env.scripts[p], w.talks[p], w.drawn + 1;
    var run, cur := Run(id, 0, "", Count), CursorOf(BigStep.Created(env, w, c.contentID, p));
    NewRow(env, w, c.contentID, p);
    var max := s.work.table.tasks[id].policy.maxRetries;
    var inputs := Loop.LoopInputs(script, from, env.ids, first, max, 0);
    Loop.LoopRefines(s.work, c.contentID, p, id, script, from, env.ids, first);
    NewIsUndrawn(env, w, s.work, c.contentID, p);
    FirstAttempt(script, from, max, cur, p, first);
    LoopFeeds(env, cur, s.work, c.contentID, p, run, from, first, max);
    var end := Loop.Take(Continue(s.work, run), c.contentID, p, inputs);
    var n := R.AttemptCount(script, from, max);
    steps := RunMoves(env, pid, cur, s, c, Continue(s.work, run), inputs,
                      LoopEnd(cur, s.work.posts, id, p, script, from, first, n));
    s', r := RunningStep(s, pid, c, end), end.report;
    Whole.ToldResult(script, from, max);
  }

  lemma FirstAttempt(script: R.Script, from: R.Talk, max: int, cur: Cursor, platform: string, first: nat)
    requires max >= 0
    ensures R.AttemptCount(script, from, max) == R.Attempts(script, from, max, 0)
    ensures platform in cur.talks && cur.talks[platform] == from && cur.drawn == first ==>
              LoopCursor(cur, platform, from, first, 0) == cur
  {
    hide R.Attempts;
    if platform in cur.talks && cur.talks[platform] == from {
      assert cur.talks[platform := from] == cur.talks;
    }
  }

  lemma NewRow(env: BigStep.Environment, w: BigStep.World, contentID: string, platform: string)
    requires !PT.TaskExists(w.table, contentID, platform)
    ensures var id := env.ids(w.drawn);
            var t := BigStep.Created(env, w, contentID, platform).table;
            && id in t.tasks && t.tasks[id] == PT.NewTask(id, contentID, platform)
            && PT.NewTask(id, contentID, platform).policy.maxRetries >= 0
            && t.tasks.Keys == w.table.tasks.Keys + {id}
  {
  }

  lemma NewIsUndrawn(env: BigStep.Environment, w: BigStep.World, work: Work, contentID: string, platform: string)
    requires DrawsNew(env, w) && !PT.TaskExists(w.table, contentID, platform)
    requires work.table == BigStep.Created(env, w, contentID, platform).table && work.attempts == w.attempts
    ensures Undrawn(env.ids, w.drawn + 1, work)
  {
    NewRow(env, w, contentID, platform);
    hide PT.CreateTask;
    forall i: nat | i >= w.drawn + 1 ensures env.ids(i) !in work.table.tasks.Keys && env.ids(i) !in work.attempts.Keys {
      assert i != w.drawn;
    }
  }

  /** One platform of a call, from the moment the call turns to it until its entry is reported. */
  lemma PlatformMoves(s: State, pid: nat, c: Call, env: BigStep.Environment, w: BigStep.World)
    returns (steps: seq<Step>, s': State, r: Report)
    requires Stands(s, pid, c) && c.at.NextPlatform? && |c.reports| < |c.platforms|
    requires Mirrors(env, w, s) && Steady(env) && Good(env, w) && BigStep.Registered(env, w)
    ensures var w' := BigStep.PlatformWorld(env, w, c.contentID, Platform(c));
            && Leads(env, pid, CursorOf(w), s, steps, CursorOf(w'), s')
            && Mirrors(env, w', s') && Stands(s', pid, Reported(c, r))
            && Tells(r, BigStep.PlatformEntry(env, w, c.contentID, Platform(c)))
  {
    hide Leads, Mirrors, Stands, Good, DrawsNew, Combo, Platform, PT.TaskExists, PT.LookUpTask, BigStep.Claimed,
         BigStep.Granted, BigStep.Ran, BigStep.Executed, BigStep.Existing, BigStep.RanTold, Reported, Tells, Steady,
         CursorOf;
    GoodParts(env, w);
    var combo := Combo(c.contentID, Platform(c));
    steps, s', r := TurnToPlatform(s, pid, c, env, w);
    if Platform(c) in env.scripts {
      var claimed := BigStep.Claimed(env, w, combo);
      var claim, s2 := ClaimMove(s', pid, c, env, w);
      Then(env, pid, CursorOf(w), s, steps, CursorOf(w), s', claim, CursorOf(claimed), s2);
      steps := steps + claim;
      ClaimKeepsGood(env, w, combo);
      var rest, s3 := [], s2;
      if !BigStep.Granted(env, w, combo) {
        rest, s3, r := LookUpMove(s2, pid, c, env, claimed, LookupFailed);
      } else {
        rest, s3, r := GrantedMoves(s2, pid, c, env, w, claimed);
      }
      Then(env, pid, CursorOf(w), s, steps, CursorOf(claimed), s2, rest,
           CursorOf(BigStep.PlatformWorld(env, w, c.contentID, Platform(c))), s3);
      steps, s' := steps + rest, s3;
    }
  }

  /** Is the platform registered? */
  lemma TurnToPlatform(s: State, pid: nat, c: Call, env: BigStep.Environment, w: BigStep.World)
    returns (steps: seq<Step>, s': State, r: Report)
    requires Stands(s, pid, c) && c.at.NextPlatform? && |c.reports| < |c.platforms| && Mirrors(env, w, s)
    ensures Leads(env, pid, CursorOf(w), s, steps, CursorOf(w), s') && Mirrors(env, w, s')
    ensures Platform(c) in env.scripts ==> Stands(s', pid, c.(at := ClaimKey))
    ensures Platform(c) !in env.scripts ==>
              && Stands(s', pid, Reported(c, r))
              && Tells(r, BigStep.Unexplained(Platform(c), PT.PlatformNotFound(Platform(c))))
  {
    hide Leads;
    steps := PlainMove(env, pid, CursorOf(w), s);
    s' := PlainStep(s, pid);
    r := Report("", PublishTaskStatus.Failed, PT.PlatformNotFound(Platform(c)), NotRegistered);
    assert s' == Put(s, pid, NextPlatformStep(s.registered, c));
  }

  /** A claim changes leases and clock only. */
  lemma ClaimKeepsGood(env: BigStep.Environment, w: BigStep.World, combo: string)
    ensures var claimed := BigStep.Claimed(env, w, combo);
            && claimed == w.(leases := claimed.leases, ticks := claimed.ticks)
            && (BigStep.Registered(env, w) ==> BigStep.Registered(env, claimed))
  {
    hide PT.Claim;
  }

  /** After a granted claim: the existing task, or a new one run to its end. */
  lemma GrantedMoves(s: State, pid: nat, c: Call, env: BigStep.Environment, w: BigStep.World, claimed: BigStep.World)
    returns (steps: seq<Step>, s': State, r: Report)
    requires Stands(s, pid, c.(at := MakeTask)) && Mirrors(env, claimed, s) && Good(env, w)
    requires BigStep.Registered(env, claimed) && Platform(c) in env.scripts
    requires claimed == w.(leases := claimed.leases, ticks := claimed.ticks)
    ensures Stands(s', pid, Reported(c, r))
    ensures if PT.TaskExists(w.table, c.contentID, Platform(c)) then
              && Leads(env, pid, CursorOf(claimed), s, steps, CursorOf(claimed), s') && Mirrors(env, claimed, s')
              && Tells(r, BigStep.Existing(w.table, c.contentID, Platform(c), CreateFailed))
            else
              var ran := BigStep.Ran(env, claimed, c.contentID, Platform(c));
              && Leads(env, pid, CursorOf(claimed), s, steps, CursorOf(ran), s') && Mirrors(env, ran, s')
              && Tells(r, BigStep.Executed(env.ids(w.drawn), Platform(c), BigStep.RanTold(env, w, Platform(c))))
  {
    hide Leads, Mirrors, Stands, Good, DrawsNew, Platform, PT.TaskExists, PT.LookUpTask, BigStep.Ran, BigStep.Executed,
         BigStep.Existing, Reported, Tells, BigStep.Created, R.Told, CursorOf;
    GoodParts(env, w);
    NextDraw(env, w);
    var s1, cur := s, CursorOf(claimed);
    steps, s1 := MakeMove(s, pid, c, env, claimed);
    var rest := [];
    if PT.TaskExists(w.table, c.contentID, Platform(c)) {
      Whole.IndexedIsFound(w.table, c.contentID, Platform(c));
      rest, s', r := LookUpMove(s1, pid, c, env, claimed, CreateFailed);
      Then(env, pid, cur, s, steps, cur, s1, rest, cur, s');
    } else {
      rest, s', r := LoopMoves(s1, pid, c, env, claimed);
      Then(env, pid, cur, s, steps, CursorOf(BigStep.Created(env, claimed, c.contentID, Platform(c))), s1, rest,
           CursorOf(BigStep.Ran(env, claimed, c.contentID, Platform(c))), s');
    }
    steps := steps + rest;
  }

  // ----- All platforms -----

  lemma RanParts(env: BigStep.Environment, w: BigStep.World, contentID: string, platform: string)
    requires BigStep.Registered(env, w) && platform in env.scripts
    ensures var id, first, from, script := env.ids(w.drawn), w.drawn + 1, w.talks[platform], env.scripts[platform];
            var n := R.AttemptCount(script, from, PT.NewTask(id, contentID, platform).policy.maxRetries);
            var w' := BigStep.Ran(env, w, contentID, platform);
            w'.attempts == R.RecordsAfter(w.attempts, id, env.ids, first, script, from, n) && w'.drawn >= first + n
  {
    hide R.EndOf, R.RecordsAfter, R.RowAfter, R.PostsAfter, R.AttemptCount, R.WithRow, R.TalkAfter, PT.CreateTask;
  }

  /** The retry loop adds no attempt but under its own draws. */
  lemma RanDraws(env: BigStep.Environment, w: BigStep.World, contentID: string, platform: string)
    requires DrawsNew(env, w) && BigStep.Registered(env, w) && platform in env.scripts
    ensures Unused(env.ids, BigStep.Ran(env, w, contentID, platform).drawn,
                   BigStep.Ran(env, w, contentID, platform).attempts.Keys)
  {
    assert forall i: nat :: i >= w.drawn + 1 ==> env.ids(i) !in w.attempts;
    hide BigStep.Ran, R.RecordsAfter, R.Added, R.AttemptCount, PT.NewTask;
    RanParts(env, w, contentID, platform);
    var id, first, from, script := env.ids(w.drawn), w.drawn + 1, w.talks[platform], env.scripts[platform];
    var n := R.AttemptCount(script, from, PT.NewTask(id, contentID, platform).policy.maxRetries);
    R.RecordsExactly(w.attempts, id, env.ids, first, script, from, n);
    NoLaterDraw(w.attempts, R.RecordsAfter(w.attempts, id, env.ids, first, script, from, n), id, env.ids, first, script,
                from, n);
  }

  lemma NoLaterDraw(t: AttemptTable, t': AttemptTable, taskID: string, ids: nat -> string, first: nat,
                    script: R.Script, from: R.Talk, n: nat)
    requires DistinctIDs(ids) && R.Added(t, t', taskID, ids, first, script, from, n)
    requires forall i: nat :: i >= first ==> ids(i) !in t
    ensures forall i: nat :: i >= first + n ==> ids(i) !in t'
  {
    hide R.EndOf, R.Record;
    forall i: nat, j: nat ensures i >= first + n && j < n ==> ids(i) != R.Drawn(ids, first, j) {
      assert ids(i) == ids(first + j) ==> i == first + j;
    }
  }

  lemma PlatformKeepsGood(env: BigStep.Environment, w: BigStep.World, contentID: string, platform: string)
    requires Good(env, w) && BigStep.Registered(env, w)
    ensures Good(env, BigStep.PlatformWorld(env, w, contentID, platform))
  {
    GoodParts(env, w);
    Whole.PlatformStep(env, w, contentID, platform);
    hide Whole.Sound, BigStep.Granted, BigStep.Ran, PT.Claim, PT.TaskExists, Combo, Unused, DistinctIDs;
    var combo := Combo(contentID, platform);
    ClaimKeepsGood(env, w, combo);
    NextDraw(env, w);
    if platform in env.scripts {
      RanDraws(env, BigStep.Claimed(env, w, combo), contentID, platform);
    }
  }

  predicate AllTell(reports: seq<Report>, entries: seq<BigStep.TaskStatus>) {
    |reports| == |entries| && forall i :: 0 <= i < |reports| ==> Tells(reports[i], entries[i])
  }

  /** The first k platforms of a call that holds the lock. */
  lemma {:induction false} PlatformsMoves(s: State, pid: nat, c: Call, env: BigStep.Environment, w: BigStep.World,
                                          k: nat)
    returns (steps: seq<Step>, s': State, reports: seq<Report>)
    requires Stands(s, pid, c) && c.at.NextPlatform? && c.reports == [] && k <= |c.platforms|
    requires Mirrors(env, w, s) && Steady(env) && Good(env, w) && BigStep.Registered(env, w)
    ensures var w' := BigStep.PlatformsWorld(env, w, c.contentID, c.platforms[..k]);
            && Leads(env, pid, CursorOf(w), s, steps, CursorOf(w'), s')
            && Mirrors(env, w', s') && Good(env, w') && Stands(s', pid, c.(reports := reports))
            && AllTell(reports, BigStep.PlatformsEntries(env, w, c.contentID, c.platforms[..k]))
  {
    hide Leads, Mirrors, Good, BigStep.PlatformWorld, BigStep.PlatformEntry, Tells, Steady, CursorOf;
    if k == 0 {
      steps, s', reports := [], s, [];
      NoSteps(env, pid, CursorOf(w), s);
      assert c.platforms[..0] == [] && c.(reports := []) == c;
    } else {
      var before, s1, told := PlatformsMoves(s, pid, c, env, w, k - 1);
      var c1 := c.(reports := told);
      var w1 := BigStep.PlatformsWorld(env, w, c.contentID, c.platforms[..k - 1]);
      assert c.platforms[..k][..k - 1] == c.platforms[..k - 1] && Platform(c1) == c.platforms[k - 1];
      var more, s2, r := PlatformMoves(s1, pid, c1, env, w1);
      PlatformKeepsGood(env, w1, c.contentID, Platform(c1));
      Then(env, pid, CursorOf(w), s, before, CursorOf(w1), s1, more,
           CursorOf(BigStep.PlatformWorld(env, w1, c.contentID, Platform(c1))), s2);
      steps, s', reports := before + more, s2, told + [r];
      assert Reported(c1, r) == c.(reports := reports);
    }
  }

  // ----- The whole call -----

  /** Fetching, re-checking and taking the lock. */
  lemma LockMoves(s: State, pid: nat, c: Call, env: BigStep.Environment, w: BigStep.World)
    returns (steps: seq<Step>, s': State)
    requires Stands(s, pid, c) && c.at.Fetch? && Mirrors(env, w, s)
    ensures Leads(env, pid, CursorOf(w), s, steps, CursorOf(w), s')
    ensures if BigStep.Publishable(w.contents, c.contentID) then
              Mirrors(env, BigStep.Locked(w, c.contentID), s') && Stands(s', pid, c.(at := NextPlatform))
            else
              Mirrors(env, w, s') && Stands(s', pid, c.(at := Returned(false)))
  {
    hide Leads, CursorAfter, PlainStep;
    var cur := CursorOf(w);
    steps := PlainMove(env, pid, cur, s);
    s' := PlainStep(s, pid);
    FetchShows(s, pid, c);
    if BigStep.Publishable(w.contents, c.contentID) {
      var recheck := PlainMove(env, pid, cur, s');
      RecheckShows(s', pid, c);
      var s2 := PlainStep(s', pid);
      Then(env, pid, cur, s, steps, cur, s', recheck, cur, s2);
      var lock := PlainMove(env, pid, cur, s2);
      LockShows(s2, pid, c);
      var s3 := PlainStep(s2, pid);
      Then(env, pid, cur, s, steps + recheck, cur, s2, lock, cur, s3);
      steps, s' := steps + recheck + lock, s3;
    }
  }

  lemma FetchShows(s: State, pid: nat, c: Call)
    requires Stands(s, pid, c) && c.at.Fetch?
    ensures PlainStep(s, pid)
         == Put(s, pid, c.(at := if BigStep.Publishable(s.contents, c.contentID)
                           then Recheck(s.contents[c.contentID].content.status)
                                 else Returned(false)))
  {
  }

  lemma RecheckShows(s: State, pid: nat, c: Call)
    requires BigStep.Publishable(s.contents, c.contentID)
    requires Stands(s, pid, c.(at := Recheck(s.contents[c.contentID].content.status)))
    ensures PlainStep(s, pid) == Put(s, pid, c.(at := TakeLock))
  {
  }

  lemma LockShows(s: State, pid: nat, c: Call)
    requires BigStep.Publishable(s.contents, c.contentID) && Stands(s, pid, c.(at := TakeLock))
    ensures PlainStep(s, pid)
         == Put(s.(contents := UpdateContent(s.contents, c.contentID, Publishing, 0),
                   lockedBy := s.lockedBy[c.contentID := pid]),
                pid, c.(at := NextPlatform))
  {
  }

  /** Entries that tell the same add up to the same status. */
  lemma SameAggregate(reports: seq<Report>, entries: seq<BigStep.TaskStatus>)
    requires AllTell(reports, entries)
    ensures Aggregate(reports) == PT.AggregateStatus(BigStep.Statuses(entries))
  {
    assert seq(|reports|, i requires 0 <= i < |reports| => reports[i].status) == BigStep.Statuses(entries);
  }

  /** No platform left: the final check and the final write. */
  lemma FinalMoves(s: State, pid: nat, c: Call, env: BigStep.Environment, w: BigStep.World, status: ContentStatus)
    returns (steps: seq<Step>, s': State)
    requires Stands(s, pid, c) && c.at.NextPlatform? && |c.reports| == |c.platforms| && Mirrors(env, w, s)
    requires c.contentID in w.contents && w.contents[c.contentID].content.status == Publishing &&
             status == Aggregate(c.reports)
    ensures Leads(env, pid, CursorOf(w), s, steps, CursorOf(w), s')
    ensures Mirrors(env, w.(contents := BigStep.Transitioned(w.contents, c.contentID, Publishing, status)), s')
    ensures Stands(s', pid, c.(at := Returned(true)))
  {
    hide Leads, PlainStep, BigStep.Transitioned, Aggregate;
    var cur := CursorOf(w);
    steps := PlainMove(env, pid, cur, s);
    NoneLeftShows(s, pid, c);
    var s1 := PlainStep(s, pid);
    var check := PlainMove(env, pid, cur, s1);
    CheckShows(s1, pid, c);
    var s2 := PlainStep(s1, pid);
    Then(env, pid, cur, s, steps, cur, s1, check, cur, s2);
    var write := PlainMove(env, pid, cur, s2);
    WriteShows(s2, pid, c);
    s' := PlainStep(s2, pid);
    Then(env, pid, cur, s, steps + check, cur, s2, write, cur, s');
    steps := steps + check + write;
  }

  lemma NoneLeftShows(s: State, pid: nat, c: Call)
    requires Stands(s, pid, c) && c.at.NextPlatform? && |c.reports| == |c.platforms|
    ensures PlainStep(s, pid) == Put(s, pid, c.(at := FinalCheck))
  {
  }

  lemma CheckShows(s: State, pid: nat, c: Call)
    requires Stands(s, pid, c.(at := FinalCheck))
    requires c.contentID in s.contents && s.contents[c.contentID].content.status == Publishing
    ensures PlainStep(s, pid) == Put(s, pid, c.(at := FinalWrite))
  {
  }

  lemma WriteShows(s: State, pid: nat, c: Call)
    requires Stands(s, pid, c.(at := FinalWrite))
    requires c.contentID in s.contents && s.contents[c.contentID].content.status == Publishing
    ensures PlainStep(s, pid)
         == Put(s.(contents := BigStep.Transitioned(s.contents, c.contentID, Publishing, Aggregate(c.reports))),
                pid, c.(at := Returned(true)))
  {
    assert Publishing.CanTransitionTo(Aggregate(c.reports));
    hide PT.AggregateStatus;
  }

  /** What a call that has returned shows of an answer. */
  predicate Shows(c: Call, answer: BigStep.Answer) {
    && c.at == Returned(answer.Answered?)
    && match answer
       case Declined(_) => c.reports == []
       case Answered(status, tasks) => AllTell(c.reports, tasks) && Aggregate(c.reports) == status
  }

  /** A call that begins in sound stores and moves alone, fed by the environment, can return, and then it has left the
      contents, tasks, attempts, posts and leases of the big-step call, has used the environment as far, and reports
      its entries. */
  lemma {:induction false} CallReturns(s: State, pid: nat, env: BigStep.Environment, w: BigStep.World,
                                       contentID: string, platforms: seq<string>)
    returns (steps: seq<Step>, s': State)
    requires pid !in s.calls && Mirrors(env, w, s) && Steady(env) && Good(env, w)
    ensures BigStep.Registered(env, w)
    ensures var w' := BigStep.PublishedWorld(env, w, contentID, platforms);
            && Leads(env, pid, CursorOf(w), Next(s, Begin(pid, contentID, platforms)), steps, CursorOf(w'), s')
            && Mirrors(env, w', s')
            && pid in s'.calls && Shows(s'.calls[pid], BigStep.PublishedAnswer(env, w, contentID, platforms))
  {
    hide Leads, Good, Steady, BigStep.PlatformsWorld, BigStep.PlatformsEntries, PT.AggregateStatus, Aggregate, AllTell,
         BigStep.Transitioned;
    GoodParts(env, w);
    var begun, c := Next(s, Begin(pid, contentID, platforms)), Call(contentID, platforms, [], Fetch);
    steps, s' := LockMoves(begun, pid, c, env, w);
    if BigStep.Publishable(w.contents, contentID) {
      LockKeepsGood(env, w, contentID);
      var rest, s2, reports := HeldMoves(s', pid, c.(at := NextPlatform), env, BigStep.Locked(w, contentID));
      Then(env, pid, CursorOf(w), begun, steps, CursorOf(w), s', rest,
           CursorOf(BigStep.PublishedWorld(env, w, contentID, platforms)), s2);
      steps, s' := steps + rest, s2;
    }
  }

  /** From the moment the call holds the lock to its return. */
  lemma HeldMoves(s: State, pid: nat, c: Call, env: BigStep.Environment, w: BigStep.World)
    returns (steps: seq<Step>, s': State, reports: seq<Report>)
    requires Stands(s, pid, c) && c.at.NextPlatform? && c.reports == []
    requires Mirrors(env, w, s) && Steady(env) && Good(env, w) && BigStep.Registered(env, w)
    requires c.contentID in w.contents && w.contents[c.contentID].content.status == Publishing
    ensures var entries := BigStep.PlatformsEntries(env, w, c.contentID, c.platforms);
            var done := BigStep.PlatformsWorld(env, w, c.contentID, c.platforms);
            var status := PT.AggregateStatus(BigStep.Statuses(entries));
            && Leads(env, pid, CursorOf(w), s, steps, CursorOf(done), s')
            && Mirrors(env, done.(contents := BigStep.Transitioned(w.contents, c.contentID, Publishing, status)), s')
            && Stands(s', pid, c.(reports := reports, at := Returned(true)))
            && AllTell(reports, entries) && Aggregate(reports) == status
  {
    hide Leads, Good, Steady, BigStep.PlatformsWorld, BigStep.PlatformsEntries, PT.AggregateStatus, Aggregate, AllTell,
         BigStep.Transitioned, BigStep.Statuses, Mirrors;
    var work, s1, told := PlatformsMoves(s, pid, c, env, w, |c.platforms|);
    assert c.platforms[..|c.platforms|] == c.platforms;
    var entries := BigStep.PlatformsEntries(env, w, c.contentID, c.platforms);
    var done := BigStep.PlatformsWorld(env, w, c.contentID, c.platforms);
    SameAggregate(told, entries);
    SameLength(told, entries);
    var status := PT.AggregateStatus(BigStep.Statuses(entries));
    var final, s2 := FinalMoves(s1, pid, c.(reports := told), env, done, status);
    Then(env, pid, CursorOf(w), s, work, CursorOf(done), s1, final, CursorOf(done), s2);
    steps, s', reports := work + final, s2, told;
  }

  lemma SameLength(reports: seq<Report>, entries: seq<BigStep.TaskStatus>)
    requires AllTell(reports, entries)
    ensures |reports| == |entries|
  {
  }

  lemma LockKeepsGood(env: BigStep.Environment, w: BigStep.World, id: string)
    requires Good(env, w) && BigStep.Publishable(w.contents, id)
    ensures var locked := BigStep.Locked(w, id);
            && Good(env, locked) && BigStep.Registered(env, locked)
            && id in locked.contents && locked.contents[id].content.status == Publishing
  {
    Whole.ContentsDoNotMatter(env, w, BigStep.Locked(w, id));
    hide Whole.Sound;
  }

  // ----- Every way to move alone -----

  /** The states differ at most in how far the clock has gone. */
  predicate SameButClock(s: State, t: State) {
    s == t.(now := s.now)
  }

  lemma SameMove(env: BigStep.Environment, cur: Cursor, s: State, t: State, step: Step, step': Step, pid: nat)
    requires SameButClock(s, t) && FedStep(env, cur, s, step, pid) && FedStep(env, cur, t, step', pid)
    ensures SameButClock(Next(s, step), Next(t, step')) && Advance(env, cur, s, pid) == Advance(env, cur, t, pid)
  {
    SameAdvance(env, cur, s, t, pid);
    FedSteps(env, cur, s, t, step, step', pid);
    SameMoveStep(s, t, step, step', pid);
    hide FedStep, Advance, MoveStep, SameInput;
  }

  lemma SameAdvance(env: BigStep.Environment, cur: Cursor, s: State, t: State, pid: nat)
    requires SameButClock(s, t)
    ensures Advance(env, cur, s, pid) == Advance(env, cur, t, pid)
  {
    hide TaskExists, ClaimGranted, RunAdvance, Platform;
  }

  /** The two moves take the same from outside wherever the call uses it. */
  predicate SameInput(s: State, c: Call, step: Step, step': Step)
    requires step.Move? && step'.Move?
  {
    match c.at
    case ClaimKey => step.now == step'.now && step.later == step'.later
    case MakeTask => step.id == step'.id
    case Running(run) =>
      RunStep(s.work, c.contentID, Platform(c), run, step.id, step.reply)
      == RunStep(s.work, c.contentID, Platform(c), run, step'.id, step'.reply)
    case _ => true
  }

  lemma FedSteps(env: BigStep.Environment, cur: Cursor, s: State, t: State, step: Step, step': Step, pid: nat)
    requires SameButClock(s, t) && FedStep(env, cur, s, step, pid) && FedStep(env, cur, t, step', pid)
    ensures pid in s.calls && SameInput(s, s.calls[pid], step, step')
  {
    hide RunStep, Platform, RunFed;
    var c := s.calls[pid];
    if c.at.Running? {
      var run, p := c.at.run, Platform(c);
      UnusedInputs(s.work, c.contentID, p, run, step.id, step'.id, step.reply, step.reply);
      UnusedInputs(s.work, c.contentID, p, run, step'.id, step'.id, step.reply, step'.reply);
      FedAlike(env, cur, p, run.at, step, step');
    }
  }

  lemma SameMoveStep(s: State, t: State, step: Step, step': Step, pid: nat)
    requires SameButClock(s, t) && pid in s.calls && step.Move? && step'.Move? &&
             SameInput(s, s.calls[pid], step, step')
    ensures SameButClock(MoveStep(s.(now := step.later), pid, step.now, step.later, step.id, step.reply),
                         MoveStep(t.(now := step'.later), pid, step'.now, step'.later, step'.id, step'.reply))
  {
    hide RunStep, FetchStep, RecheckStep, TakeLockStep, NextPlatformStep, LookUpStep, FinalCheckStep, FinalWriteStep,
         ClaimStep, MakeTaskStep, RunningStep, Put, Platform;
    var s1, t1, c := s.(now := step.later), t.(now := step'.later), s.calls[pid];
    SameAtClock(s, t, step, step', pid);
    match c.at
    case Running(run) =>
      SameOutcome(s1, t1, pid, c, RunStep(s.work, c.contentID, Platform(c), run, step.id, step.reply));
    case Fetch => SamePut(s1, t1, pid, FetchStep(s.contents, c));
    case Recheck(seen) => SamePut(s1, t1, pid, RecheckStep(s.contents, c, seen));
    case NextPlatform => SamePut(s1, t1, pid, NextPlatformStep(s.registered, c));
    case LookUp => SamePut(s1, t1, pid, LookUpStep(s.work.table, c));
    case FinalCheck => SamePut(s1, t1, pid, FinalCheckStep(s.contents, c));
    case _ =>
  }

  lemma SamePut(s: State, t: State, pid: nat, c: Call)
    requires SameButClock(s, t)
    ensures SameButClock(Put(s, pid, c), Put(t, pid, c))
  {
  }

  lemma SameOutcome(s: State, t: State, pid: nat, c: Call, o: Outcome)
    requires SameButClock(s, t)
    ensures SameButClock(RunningStep(s, pid, c, o), RunningStep(t, pid, c, o))
  {
  }

  lemma FedAlike(env: BigStep.Environment, cur: Cursor, platform: string, at: RunAt, step: Step, step': Step)
    requires step.Move? && step'.Move?
    requires RunFed(env, cur, platform, at, step.id, step.reply) &&
             RunFed(env, cur, platform, at, step'.id, step'.reply)
    ensures at.OpenAttempt? || at.RecordPost? ==> step.id == step'.id
    ensures at.Validate? || at.Upload? || at.Publish? ==> step.reply == step'.reply
  {
  }

  /** The steps of a call look at the clock only where they are handed a reading. */
  lemma SameAtClock(s: State, t: State, step: Step, step': Step, pid: nat)
    requires SameButClock(s, t) && pid in s.calls && step.Move? && step'.Move?
    ensures var s1, t1, c := s.(now := step.later), t.(now := step'.later), s.calls[pid];
            match c.at
            case TakeLock => SameButClock(TakeLockStep(s1, pid, c), TakeLockStep(t1, pid, c))
            case ClaimKey =>
              step.now == step'.now && step.later == step'.later ==>
                SameButClock(ClaimStep(s1, pid, c, step.now, step.later), ClaimStep(t1, pid, c, step'.now, step'.later))
            case MakeTask =>
              step.id == step'.id ==>
                SameButClock(MakeTaskStep(s1, pid, c, step.id), MakeTaskStep(t1, pid, c, step'.id))
            case FinalWrite => SameButClock(FinalWriteStep(s1, pid, c), FinalWriteStep(t1, pid, c))
            case _ => true
  {
    hide UpdateContent, Claim, CreateStep, LockGranted, ClaimGranted, TaskExists, Aggregate;
    assert LockGranted(s.contents, s.calls[pid]) == LockGranted(t.contents, s.calls[pid]);
  }

  lemma {:induction false} SameMoves(env: BigStep.Environment, cur: Cursor, s: State, steps: seq<Step>,
                                     steps': seq<Step>, pid: nat)
    requires Fed(env, cur, s, steps, pid) && Fed(env, cur, s, steps', pid) && |steps| == |steps'|
    ensures SameButClock(RunFrom(s, steps), RunFrom(s, steps'))
    ensures CursorAfter(env, cur, s, steps, pid) == CursorAfter(env, cur, s, steps', pid)
  {
    hide FedStep, Advance, Next, SameButClock;
    if steps == [] {
      Same(s);
    } else {
      var k := |steps| - 1;
      SameMoves(env, cur, s, steps[..k], steps'[..k], pid);
      SameMove(env, CursorAfter(env, cur, s, steps[..k], pid), RunFrom(s, steps[..k]), RunFrom(s, steps'[..k]),
               steps[k], steps'[k], pid);
    }
  }

  lemma Same(s: State)
    ensures SameButClock(s, s)
  {
  }

  lemma SameIsTransitive(s: State, t: State, u: State)
    requires SameButClock(s, t) && SameButClock(u, t)
    ensures SameButClock(s, u)
  {
  }

  /** A call that has returned stays as it is. */
  lemma {:induction false} ReturnedStays(env: BigStep.Environment, cur: Cursor, s: State, steps: seq<Step>, pid: nat)
    requires Fed(env, cur, s, steps, pid) && pid in s.calls && s.calls[pid].at.Returned?
    ensures SameButClock(RunFrom(s, steps), s) && CursorAfter(env, cur, s, steps, pid) == cur
  {
    if steps != [] {
      var before := steps[..|steps| - 1];
      ReturnedStays(env, cur, s, before, pid);
      assert FedStep(env, CursorAfter(env, cur, s, before, pid), RunFrom(s, before), steps[|steps| - 1], pid);
      hide CursorAfter, Fed;
    }
  }

  /** The clock never passes the next reading. */
  lemma {:induction false} ClockInTime(env: BigStep.Environment, cur: Cursor, s: State, steps: seq<Step>, pid: nat)
    requires Steady(env) && Fed(env, cur, s, steps, pid) && s.now <= env.readings(cur.ticks)
    ensures RunFrom(s, steps).now <= env.readings(CursorAfter(env, cur, s, steps, pid).ticks)
  {
    if steps != [] {
      var k := |steps| - 1;
      ClockInTime(env, cur, s, steps[..k], pid);
      ClockStep(env, CursorAfter(env, cur, s, steps[..k], pid), RunFrom(s, steps[..k]), steps[k], pid);
      hide Advance, Next, FedStep, Steady;
    }
  }

  lemma ClockStep(env: BigStep.Environment, cur: Cursor, s: State, step: Step, pid: nat)
    requires Steady(env) && FedStep(env, cur, s, step, pid)
    ensures Next(s, step).now <= env.readings(Advance(env, cur, s, pid).ticks)
  {
    MoveKeepsClock(s.(now := step.later), pid, step.now, step.later, step.id, step.reply);
    hide MoveStep, RunFed, ClaimGranted, TaskExists, Platform;
    if s.calls[pid].at.ClaimKey? && Held(s, s.calls[pid]) &&
      !ClaimGranted(s.leases, TaskKey(ComboOf(s.calls[pid])), step.now) {
      assert Advance(env, cur, s, pid).ticks == cur.ticks + 1;
    }
  }

  lemma MoveKeepsClock(s: State, pid: nat, now: int, later: int, id: string, reply: Reply)
    requires pid in s.calls
    ensures MoveStep(s, pid, now, later, id, reply).now == s.now
  {
    hide RunStep, FetchStep, RecheckStep, TakeLockStep, NextPlatformStep, LookUpStep, FinalCheckStep, FinalWriteStep,
         ClaimStep, MakeTaskStep, RunningStep, Platform;
    var c := s.calls[pid];
    StepsKeepClock(s, pid, c, now, later, id);
    if c.at.Running? {
      RunKeepsClock(s, pid, c, RunStep(s.work, c.contentID, Platform(c), c.at.run, id, reply));
    }
  }

  lemma StepsKeepClock(s: State, pid: nat, c: Call, now: int, later: int, id: string)
    ensures TakeLockStep(s, pid, c).now == s.now && ClaimStep(s, pid, c, now, later).now == s.now
    ensures MakeTaskStep(s, pid, c, id).now == s.now && FinalWriteStep(s, pid, c).now == s.now
  {
    hide UpdateContent, Claim, CreateStep, LockGranted, ClaimGranted, TaskExists, Aggregate;
  }

  lemma RunKeepsClock(s: State, pid: nat, c: Call, o: Outcome)
    ensures RunningStep(s, pid, c, o).now == s.now
  {
  }

  /** Any way in which the call moves alone, fed by the environment, to its return leaves the contents, tasks, attempts,
      posts and leases of the big-step call in that environment, has used the environment as far, and reports the
      entries of its answer. There is such a way, by CallReturns. */
  lemma {:induction false} CallRefines(s: State, pid: nat, env: BigStep.Environment, w: BigStep.World,
                                       contentID: string, platforms: seq<string>, steps: seq<Step>)
    requires pid !in s.calls && Mirrors(env, w, s) && Steady(env) && Good(env, w)
    requires var begun := Next(s, Begin(pid, contentID, platforms));
             && Fed(env, CursorOf(w), begun, steps, pid)
             && pid in RunFrom(begun, steps).calls && RunFrom(begun, steps).calls[pid].at.Returned?
    ensures BigStep.Registered(env, w)
    ensures var begun := Next(s, Begin(pid, contentID, platforms));
            var s', w' := RunFrom(begun, steps), BigStep.PublishedWorld(env, w, contentID, platforms);
            && Mirrors(env, w', s') && CursorAfter(env, CursorOf(w), begun, steps, pid) == CursorOf(w')
            && Shows(s'.calls[pid], BigStep.PublishedAnswer(env, w, contentID, platforms))
  {
    var way, end := CallReturns(s, pid, env, w, contentID, platforms);
    var begun, cur := Next(s, Begin(pid, contentID, platforms)), CursorOf(w);
    assert begun.now <= env.readings(cur.ticks);
    hide Good, Steady, Next, BigStep.PublishedWorld, BigStep.PublishedAnswer, Fed, CursorAfter, RunFrom;
    ClockInTime(env, cur, begun, steps, pid);
    BothEnds(env, cur, begun, way, steps, pid);
  }

  /** Two fed ways to the return end alike. */
  lemma BothEnds(env: BigStep.Environment, cur: Cursor, s: State, a: seq<Step>, b: seq<Step>, pid: nat)
    requires Fed(env, cur, s, a, pid) && Fed(env, cur, s, b, pid)
    requires pid in RunFrom(s, a).calls && RunFrom(s, a).calls[pid].at.Returned?
    requires pid in RunFrom(s, b).calls && RunFrom(s, b).calls[pid].at.Returned?
    ensures SameButClock(RunFrom(s, a), RunFrom(s, b)) &&
            CursorAfter(env, cur, s, a, pid) == CursorAfter(env, cur, s, b, pid)
  {
    if |a| <= |b| { ShorterEnds(env, cur, s, a, b, pid); } else { ShorterEnds(env, cur, s, b, a, pid); }
  }

  lemma ShorterEnds(env: BigStep.Environment, cur: Cursor, s: State, a: seq<Step>, b: seq<Step>, pid: nat)
    requires Fed(env, cur, s, a, pid) && Fed(env, cur, s, b, pid) && |a| <= |b|
    requires pid in RunFrom(s, a).calls && RunFrom(s, a).calls[pid].at.Returned?
    ensures SameButClock(RunFrom(s, a), RunFrom(s, b)) &&
            CursorAfter(env, cur, s, a, pid) == CursorAfter(env, cur, s, b, pid)
  {
    hide Fed, CursorAfter, RunFrom;
    var front, rest := b[..|a|], b[|a|..];
    assert b == front + rest;
    FedInParts(env, pid, cur, s, front, rest);
    SameMoves(env, cur, s, a, front, pid);
    ReturnedStays(env, CursorAfter(env, cur, s, front, pid), RunFrom(s, front), rest, pid);
    SameIsTransitive(RunFrom(s, a), RunFrom(s, front), RunFrom(s, b));
  }
}
