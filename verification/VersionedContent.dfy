/** What the version check of module StorageContent guarantees any number of interleaved readers and writers,
    although updates never look at the transition table. */
module VersionedContent {
  import opened Contracts
  import opened StorageContent

  // ----- Readers and writers -----

  /** What a client saw when it last fetched a content. */
  datatype Snapshot = Snapshot(id: string, status: ContentStatus, version: int)

  /** The store, the clients' snapshots, and two histories that no step reads: every status each content has had,
      and every accepted update with its version. */
  datatype State = State(
    table: Table,
    seen: map<nat, Snapshot>,
    paths: map<string, seq<ContentStatus>>,
    accepted: multiset<(string, int)>)

  /** Each store call is atomic. Fetch and Write are calls of a client; a Write may pass any version. */
  datatype Step =
    | Create(item: Item)
    | Fetch(client: nat, id: string)
    | Write(client: nat, id: string, status: ContentStatus, version: int)

  predicate Accepts(s: State, step: Step) {
    step.Write? && CompareAndSetError(s.table, step.id, step.version) == None
  }

  function Next(s: State, step: Step): State {
    match step
    case Create(item) =>
      if item.id in s.table || item.status != Draft then s
      else s.(table := s.table[item.id := Record(item, 1)], paths := s.paths[item.id := [Draft]])
    case Fetch(client, id) =>
      if id !in s.table then s
      else s.(seen := s.seen[client := Snapshot(id, s.table[id].item.status, s.table[id].version)])
    case Write(_, id, status, version) =>
      if !Accepts(s, step) then s
      else s.(table := CompareAndSet(s.table, id, status, version),
              paths := s.paths[id := (if id in s.paths then s.paths[id] else []) + [status]],
              accepted := s.accepted + multiset{(id, version)})
  }

  function RunFrom(s: State, steps: seq<Step>): State {
    if steps == [] then s else Next(RunFrom(s, steps[..|steps| - 1]), steps[|steps| - 1])
  }

  function Initial(): State {
    State(map[], map[], map[], multiset{})
  }

  /** How many updates of the content are accepted along the run. */
  function Successes(s: State, steps: seq<Step>, id: string): nat {
    if steps == [] then 0
    else
      var before := steps[..|steps| - 1];
      var last := steps[|steps| - 1];
      Successes(s, before, id) + (if Accepts(RunFrom(s, before), last) && last.id == id then 1 else 0)
  }

  // ----- What every step keeps -----

  /** The path of a content ends in its status, and has one entry more than its accepted updates. */
  predicate PathOk(s: State, id: string)
    requires id in s.table
  {
    id in s.paths && |s.paths[id]| == s.table[id].version && s.table[id].version >= 1
    && s.paths[id][0] == Draft && s.paths[id][s.table[id].version - 1] == s.table[id].item.status
  }

  predicate AcceptedOk(s: State, id: string, v: int) {
    s.accepted[(id, v)] == (if id in s.table && 1 <= v < s.table[id].version then 1 else 0)
  }

  /** A snapshot shows the status the content had at that version. */
  predicate SeenOk(s: State, client: nat)
    requires client in s.seen
  {
    var snap := s.seen[client];
    snap.id in s.table && snap.id in s.paths && 1 <= snap.version <= |s.paths[snap.id]|
    && s.paths[snap.id][snap.version - 1] == snap.status
  }

  ghost predicate Inv(s: State) {
    && (forall id :: id in s.table ==> PathOk(s, id))
    && (forall id, v :: AcceptedOk(s, id, v))
    && (forall client :: client in s.seen ==> SeenOk(s, client))
    && s.paths.Keys <= s.table.Keys
  }

  lemma PathsKept(s: State, step: Step)
    requires Inv(s)
    ensures forall id :: id in Next(s, step).table ==> PathOk(Next(s, step), id)
  {
    var s' := Next(s, step);
    forall id | id in s'.table ensures PathOk(s', id) {
      if id in s.table { assert PathOk(s, id); }
    }
  }

  lemma AcceptedKept(s: State, step: Step)
    requires Inv(s)
    ensures forall id, v :: AcceptedOk(Next(s, step), id, v)
  {
    var s' := Next(s, step);
    forall id, v ensures AcceptedOk(s', id, v) {
      assert AcceptedOk(s, id, v);
      if id in s.table { assert PathOk(s, id); }
    }
  }

  lemma SeenKept(s: State, step: Step)
    requires Inv(s)
    ensures forall client :: client in Next(s, step).seen ==> SeenOk(Next(s, step), client)
  {
    var s' := Next(s, step);
    forall client | client in s'.seen ensures SeenOk(s', client) {
      if client in s.seen {
        assert SeenOk(s, client) && PathOk(s, s.seen[client].id);
      }
      if step.Fetch? && step.id in s.table { assert PathOk(s, step.id); }
    }
  }

  lemma {:induction false} InvAlways(steps: seq<Step>)
    ensures Inv(RunFrom(Initial(), steps))
  {
    hide Inv, Next;
    if steps == [] {
      EmptyInv();
    } else {
      InvAlways(steps[..|steps| - 1]);
      StepKeepsInv(RunFrom(Initial(), steps[..|steps| - 1]), steps[|steps| - 1]);
    }
  }

  lemma EmptyInv()
    ensures Inv(Initial())
  {
  }

  lemma StepKeepsInv(s: State, step: Step)
    requires Inv(s)
    ensures Inv(Next(s, step))
  {
    PathsKept(s, step);
    AcceptedKept(s, step);
    SeenKept(s, step);
    hide PathOk, AcceptedOk, SeenOk, Next;
  }

  // ----- The theorems -----

  /** In every interleaving a content's version is one more than its accepted updates, the accepted versions are
      exactly those below it, each of them once, and no update with version 0 or less is ever accepted. */
  lemma {:induction false} VersionsCountUpdates(steps: seq<Step>, id: string, v: int)
    ensures var s := RunFrom(Initial(), steps);
            && (id in s.table ==> s.table[id].version == 1 + Successes(Initial(), steps, id))
            && s.accepted[(id, v)] == (if id in s.table && 1 <= v < s.table[id].version then 1 else 0)
            && (v <= 0 ==> CompareAndSetError(s.table, id, v) != None)
  {
    InvAlways(steps);
    var s := RunFrom(Initial(), steps);
    assert AcceptedOk(s, id, v);
    if id in s.table {
      assert PathOk(s, id);
      VersionsAndSuccesses(steps, id);
    }
  }

  function VersionOf(s: State, id: string): int {
    if id in s.table then s.table[id].version else 1
  }

  lemma VersionStep(s: State, step: Step, id: string)
    ensures VersionOf(Next(s, step), id) == VersionOf(s, id) + (if Accepts(s, step) && step.id == id then 1 else 0)
  {
  }

  lemma {:induction false} VersionsAndSuccesses(steps: seq<Step>, id: string)
    ensures VersionOf(RunFrom(Initial(), steps), id) == 1 + Successes(Initial(), steps, id)
  {
    hide Next, Accepts, VersionOf;
    if steps == [] {
      assert VersionOf(Initial(), id) == 1 by { NothingStored(id); }
    } else {
      VersionsAndSuccesses(steps[..|steps| - 1], id);
      VersionStep(RunFrom(Initial(), steps[..|steps| - 1]), steps[|steps| - 1], id);
    }
  }

  lemma NothingStored(id: string)
    ensures VersionOf(Initial(), id) == 1
  {
  }

  lemma NeverDeleted(s: State, step: Step, id: string)
    requires id in s.table
    ensures id in Next(s, step).table
  {
  }

  lemma {:induction false} VersionsRise(s: State, steps: seq<Step>, id: string)
    requires id in s.table
    ensures id in RunFrom(s, steps).table &&
            RunFrom(s, steps).table[id].version == s.table[id].version + Successes(s, steps, id)
  {
    hide Next, Accepts;
    if steps != [] {
      var before := steps[..|steps| - 1];
      VersionsRise(s, before, id);
      VersionStep(RunFrom(s, before), steps[|steps| - 1], id);
      NeverDeleted(RunFrom(s, before), steps[|steps| - 1], id);
    }
  }

  /** After a fetch returned version v, an update with v is accepted exactly as long as no other update of the
      content has been accepted since: no update is ever lost. */
  lemma {:induction false} NoLostUpdate(s: State, client: nat, id: string, steps: seq<Step>)
    requires id in s.table
    ensures var v := Next(s, Fetch(client, id)).seen[client].version;
            CompareAndSetError(RunFrom(s, steps).table, id, v) == None <==> Successes(s, steps, id) == 0
  {
    VersionsRise(s, steps, id);
  }

  /** A client that keeps the discipline writes only with its snapshot, and only along the transition table as
      seen in that snapshot. */
  predicate Disciplined(s: State, step: Step) {
    step.Write? ==>
      && step.client in s.seen && s.seen[step.client].id == step.id && s.seen[step.client].version == step.version
      && s.seen[step.client].status.CanTransitionTo(step.status)
  }

  predicate AllDisciplined(steps: seq<Step>) {
    forall i :: 0 <= i < |steps| ==> Disciplined(RunFrom(Initial(), steps[..i]), steps[i])
  }

  ghost predicate LegalPaths(s: State) {
    forall id :: id in s.paths ==> id in s.table && LegalContentPath(s.paths[id])
  }

  lemma DisciplineTakesEdges(s: State, step: Step)
    requires Inv(s) && Disciplined(s, step)
    ensures TakesEdge(s, step)
  {
    hide ContentStatus.CanTransitionTo;
    if Accepts(s, step) {
      assert PathOk(s, step.id) && SeenOk(s, step.client);
    }
  }

  lemma DisciplineKeepsPaths(s: State, step: Step)
    requires Inv(s) && LegalPaths(s) && Disciplined(s, step)
    ensures LegalPaths(Next(s, step))
  {
    hide *;
    DisciplineTakesEdges(s, step);
    EdgeDecides(s, step);
  }

  /** Although the store never looks at the transition table, clients that check it on what they fetched walk
      every content along it, in every interleaving. */
  lemma {:induction false} DisciplineIsEnough(steps: seq<Step>)
    requires AllDisciplined(steps)
    ensures LegalPaths(RunFrom(Initial(), steps))
  {
    if steps == [] {
    } else {
      var before := steps[..|steps| - 1];
      forall i | 0 <= i < |before| ensures Disciplined(RunFrom(Initial(), before[..i]), before[i]) {
        assert before[..i] == steps[..i] && before[i] == steps[i];
        assert Disciplined(RunFrom(Initial(), steps[..i]), steps[i]);
      }
      DisciplineIsEnough(before);
      InvAlways(before);
      assert Disciplined(RunFrom(Initial(), before), steps[|steps| - 1]);
      DisciplineKeepsPaths(RunFrom(Initial(), before), steps[|steps| - 1]);
      hide Inv, LegalPaths, Next, Disciplined;
    }
  }

  /** A write that keeps the discipline in its last part: if it is accepted, the content's status at that moment has
      an edge to the new one. */
  predicate TakesEdge(s: State, step: Step) {
    Accepts(s, step) ==> s.table[step.id].item.status.CanTransitionTo(step.status)
  }

  lemma EdgeDecides(s: State, step: Step)
    requires Inv(s) && LegalPaths(s)
    ensures LegalPaths(Next(s, step)) <==> TakesEdge(s, step)
  {
    hide ContentStatus.CanTransitionTo;
    var s' := Next(s, step);
    if Accepts(s, step) {
      assert PathOk(s, step.id) && LegalContentPath(s.paths[step.id]);
      var path, path' := s.paths[step.id], s'.paths[step.id];
      assert path' == path + [step.status];
      assert path'[|path| - 1] == s.table[step.id].item.status && path'[|path|] == step.status;
      if LegalContentPath(path') { assert path'[|path| - 1].CanTransitionTo(path'[|path|]); }
    }
    forall id | id in s'.paths && TakesEdge(s, step) ensures id in s'.table && LegalContentPath(s'.paths[id]) {
      if id in s.paths { assert LegalContentPath(s.paths[id]); }
    }
  }

  /** Exactly: an accepted write with the version of the client's snapshot keeps every path legal if and only if the
      snapshot's status has an edge to the new one, which the client can check before the call. */
  lemma {:induction false} SnapshotDecides(s: State, step: Step)
    requires Inv(s) && LegalPaths(s) && Accepts(s, step)
    requires step.client in s.seen && s.seen[step.client].id == step.id && s.seen[step.client].version == step.version
    ensures LegalPaths(Next(s, step)) <==> s.seen[step.client].status.CanTransitionTo(step.status)
  {
    assert PathOk(s, step.id) && SeenOk(s, step.client);
    EdgeDecides(s, step);
    hide ContentStatus.CanTransitionTo, Inv, LegalPaths, Next;
  }

  /** An illegal path stays illegal: it is only ever extended. */
  lemma IllegalForGood(s: State, step: Step)
    requires Inv(s) && LegalPaths(Next(s, step))
    ensures LegalPaths(s)
  {
    hide ContentStatus.CanTransitionTo;
    var s' := Next(s, step);
    forall id | id in s.paths ensures id in s.table && LegalContentPath(s.paths[id]) {
      assert id in s'.paths && LegalContentPath(s'.paths[id]);
      var path, path' := s.paths[id], s'.paths[id];
      assert path <= path';
      forall i | 0 < i < |path| ensures path[i - 1].CanTransitionTo(path[i]) {
        assert path'[i - 1] == path[i - 1] && path'[i] == path[i];
      }
    }
  }

  /** Every accepted write of the run took an edge from the status it found. */
  predicate AllTakeEdges(steps: seq<Step>) {
    forall i :: 0 <= i < |steps| ==> TakesEdge(RunFrom(Initial(), steps[..i]), steps[i])
  }

  lemma EdgesStep(steps: seq<Step>)
    requires steps != []
    ensures var before, last := steps[..|steps| - 1], steps[|steps| - 1];
            AllTakeEdges(steps) <==> AllTakeEdges(before) && TakesEdge(RunFrom(Initial(), before), last)
  {
    hide RunFrom, TakesEdge;
    var before := steps[..|steps| - 1];
    forall i | 0 <= i < |before| ensures before[..i] == steps[..i] && before[i] == steps[i] {}
    if AllTakeEdges(before) && TakesEdge(RunFrom(Initial(), before), steps[|steps| - 1]) {
      forall i | 0 <= i < |steps| ensures TakesEdge(RunFrom(Initial(), steps[..i]), steps[i]) {
        if i < |before| { assert TakesEdge(RunFrom(Initial(), before[..i]), before[i]); }
      }
    }
    if AllTakeEdges(steps) {
      forall i | 0 <= i < |before| ensures TakesEdge(RunFrom(Initial(), before[..i]), before[i]) {
        assert TakesEdge(RunFrom(Initial(), steps[..i]), steps[i]);
      }
    }
  }

  /** Exactly: after any run every content has walked along the table if and only if every accepted write took an
      edge from the status it found. */
  lemma {:induction false} LegalExactly(steps: seq<Step>)
    ensures LegalPaths(RunFrom(Initial(), steps)) <==> AllTakeEdges(steps)
  {
    if steps == [] {
      NoPathsYet();
    } else {
      hide Inv, LegalPaths, Next, TakesEdge, AllTakeEdges;
      var before, last := steps[..|steps| - 1], steps[|steps| - 1];
      EdgesStep(steps);
      LegalExactly(before);
      InvAlways(before);
      var s := RunFrom(Initial(), before);
      if LegalPaths(s) { EdgeDecides(s, last); }
      if LegalPaths(Next(s, last)) { IllegalForGood(s, last); }
    }
  }

  lemma NoPathsYet()
    ensures LegalPaths(Initial())
  {
  }

  /** Without the discipline the store takes a draft straight to published. */
  lemma {:induction false} StoreDoesNotCheckTransitions(item: Item, client: nat)
    requires item.status == Draft
    ensures var s := RunFrom(Initial(), [Create(item), Write(client, item.id, Published, 1)]);
            item.id in s.paths && s.paths[item.id] == [Draft, Published] && !LegalPaths(s)
  {
    var one, two := Create(item), Write(client, item.id, Published, 1);
    assert [one, two][..1] == [one] && [one][..0] == [];
    var s1 := RunFrom(Initial(), [one]);
    assert RunFrom(Initial(), []) == Initial();
    assert s1 == Next(Initial(), one);
    var s := RunFrom(Initial(), [one, two]);
    assert s == Next(s1, two);
    assert s.paths[item.id] == [Draft, Published];
    assert !s.paths[item.id][0].CanTransitionTo(s.paths[item.id][1]);
    assert !LegalContentPath(s.paths[item.id]);
  }
}
