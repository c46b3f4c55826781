# Verification of the publish orchestration core

PostHub publishes a content to several platforms. A publish call takes a content-level lock by moving the content
to publishing, claims an idempotency lease and creates a uniquely keyed task for each platform, runs a bounded
retry loop against the platform's adapter, and adds the results up to the content's final status. This project
models that core in Dafny and proves what it guarantees. `dafny verify dfyconfig.toml` checks everything.

The same code is modelled in two layers that share their vocabulary (module `PublishTables`: what each store holds
and what each store operation does to it).

- **One call at a time.** The stores are classes updated in place (`PublishStores`), and `PublishService.Service` has
  the retry loop, the steps of one platform and the whole call as methods. They are proved against functions
  (`Retry`, `PublishRun`), about which `Retry`, `PublishTheorems`, `PostEntries` and `AttemptListing` prove the
  ledger of the retry loop, the result of a call, whose posts its entries name, and what calling again does.
  Adapters are arbitrary: any answers to any number of calls. So are the drawn ids, which never repeat and hold no
  colon, and the clock readings.
- **Any number of calls at once.** `Protocol` is a state machine: each store method, guarded by its store's mutex,
  and each adapter call is one atomic step of some call; other actors create and move contents, claim other keys
  and clean up leases. `ProtocolLocks`, `ProtocolKeys`, `ProtocolLedger`, `ProtocolSafety` and `ProtocolReports`
  prove what each step keeps, and `ProtocolTheorems` what follows for every run. Contents do not start in
  publishing, and nobody but a call moves one into or out of it.

Two results tie the layers together. `ProtocolRefinement` and `CallRefinement`: the retry loop and a whole call, taken
in small steps without others in between, leave in the stores what the big-step forms compute, in every environment.
`ProtocolStories`, `SerialWorlds` and `Serializability`: calls that do run in between each other leave and report what
the big-step calls compute one after the other. The proof reads the environment off the stores: what is stored of a
finished task tells how each of its attempts ended.

Around them:

- `Contracts`, `Policy`: the two transition tables, and the backoff in exact arithmetic (durations in whole
  nanoseconds, the random draw as a parameter).
- `Keys`: the composite string keys, when they are ambiguous, and the generated ids.
- `Leases`: traces of Claim, Get and Cleanup under a clock that never goes back.
- `TaskIndex`: the task store that scans all tasks, and exactly when the indexed one answers like it.
- `StorageContent`, `VersionedContent`, `Sorting`, `Paging`: compare-and-set updates of contents, and listings in
  pages.
- `Handler`, `OverlappingDeliveries`: the queue-side handler with its lease guard, its deliveries one after the other
  and interleaved. `Api`: the creation of a batch. `Mock`: the scripted adapter, run through the retry loop.

## Where the code and its documentation differ

The model follows the code.

- Exhausted retries: the service reports dead, but the write of dead comes from processing
  (internal/publish/service.go:343), which the transition table does not allow, and the error is dropped. The store
  keeps processing without an error. This happens exactly if every allowed attempt calls for a retry
  (`Retry.ToldIsStoredExactly`). docs/architecture/publish-state-machine.md:99 has dead only after retrying,
  and its edge from failed to dead (line 100) is not in the code.
- Republishing: docs/architecture/publish-state-machine.md:291-297 promises that a failed platform can be retried
  on its own. The code returns the existing task and runs nothing (`PublishTheorems.Republish`).
- Listing attempts: internal/storage/stores.go:74 promises the order of the attempt numbers. The store of
  internal/storage sorts; the one of internal/publish, which the service runs over, does not
  (`AttemptListing.UnsortedListingExactly`).
- Redelivery: the handler returns retryable errors for another delivery (internal/queue/handler.go:163-168), but over
  a store that keeps to the transition table that delivery is refused at its first write, because the task is still
  processing (`Handler.NoSecondAttempt`).
- Version 0: the service passes version 0. The publish package's store then skips the version check; the store of
  internal/storage always refuses it (`VersionedContent.VersionsCountUpdates`), so the service works with the former
  only.
- The mock adapter's field comment says that 0 failed attempts mean immediate success
  (internal/platform/mock/mock.go, Behavior); with an error configured it means no success at all
  (`Mock.EndlessMock`).
- The documented rule for partially published asks for a failed or dead task besides a succeeded one; the code only
  asks that not all succeeded.

## Model

| member | source | states |
|---|---|---|
| ProtocolTheorems.InvKept | internal/publish/service.go:70-243 | Every single step of any of the concurrent calls, of other actors or of the clock keeps the whole invariant: locks, keys and leases, tasks with their attempts and posts, and reports |
| ProtocolTheorems.MutualExclusion | internal/publish/service.go:82-109 | In every interleaving, at most one Publish call of a content is between its accepted write of publishing and its final write |
| ProtocolTheorems.PublishingExactlyWhileOwned | internal/publish/service.go:364-396 | In every reachable state a content is stored as publishing if and only if some call owns it |
| ProtocolTheorems.FinalWriteNeverFails | internal/publish/service.go:103-109 | The owner always finds its content publishing, and its final transition is never refused and stores the aggregated status |
| ProtocolTheorems.GetsIn | internal/publish/service.go:71-98 | Whatever others do between its first three moves, a call takes the lock exactly if it finds the content ready or partially published, finds the same status when it looks again, and finds it ready or partially published when it writes; else it returns without success |
| ProtocolTheorems.GetsOut | internal/publish/service.go:103-120 | A call that has worked off its platforms stores what its entries add up to exactly if it finds its content publishing and finds it so again when it writes, whatever others do in between; it returns with success in any case |
| ProtocolTheorems.AtMostOnce | internal/publish/service.go:145-346 | Over every run, with leases expiring and being cleaned up, the retry loop is entered at most once per content and platform, the adapter is asked to publish at most MaxRetries + 1 = 4 times and accepts at most once |
| ProtocolTheorems.LookUpsNeverFail | internal/publish/service.go:163-214 | A refused claim and a creation conflict always find the existing task: the two look-up error entries are never reported |
| ProtocolTheorems.LeaseMeansTask | internal/publish/storage.go:140-202 | Every lease on a task key has its task in the index, unless the owner of the content is just between Claim and CreateTask for that key |
| ProtocolTheorems.RestingTasks | internal/publish/service.go:280-346 | A task that no call is running is succeeded, failed, or processing after exhausted retries; it has a post if and only if it is stored as succeeded, which is if and only if the adapter accepted once; its attempts are numbered 1 to its attempt count and closed |
| ProtocolTheorems.NeverStoredDead | internal/publish/service.go:340-346 | No task is ever stored as dead: the one write of dead comes from processing, which the transition table refuses |
| ProtocolTheorems.ReportsStayTrue | internal/publish/service.go:216-242 | What a call reports for a platform names the task of that content and that platform, and agrees with what is stored of it then and at every later moment, except that dead is reported where processing is stored |
| ProtocolTheorems.EveryCallReturns | internal/publish/service.go:70-120 | Until it returns a call can always make a move, whatever the others do; it makes at most 64 moves per platform and 68 more, and after that many it has returned |
| Serializability.Serializable | internal/publish/service.go:70-120 | Calls are serializable: after any run in which all calls have returned, contents, tasks, attempts and posts are those of the whole calls applied one after the other in the order of their final writes, between the other actors' changes of contents, in one environment and under any clock; and every call reports what it answers there |
| Serializability.SerializableSoFar | internal/publish/service.go:70-120 | The same at every moment of every run, for the calls that have completed: what the running ones have made so far is their own, and only the contents they have locked look different |
| Serializability.HistoryOfCalls | internal/publish/service.go:103-119 | The serial order holds each call that has taken its lock and returned exactly once, with its final reports |
| ProtocolStories.StoriesKept | internal/publish/service.go:123-361 | Every step keeps it that the stores alone retell each finished retry loop (how every attempt ended, from its record, the row and the post), which call made which task, and which entry was executed or found; and no step changes any of this for a task at rest |
| ProtocolStories.StepKeepsStory | internal/publish/service.go:257-358 | Inside the loop the records so far and the position say how the attempts ended, and the entry that leaves the loop is the verdict on the last one |
| ProtocolStories.OpenAttempts | internal/publish/service.go:262-343 | In every run an attempt that is not completed is the last one, under its number, of a task that a call is running, and is stored as processing without an error |
| ProtocolStories.RetryingTellsWhy | internal/publish/service.go:318-349 | In every run a task stored as retrying is run by a call, and its stored error is the one of its last completed attempt, which failed |
| SerialWorlds.NewPlatform | internal/publish/service.go:123-243 | A world that holds finished tasks with their attempts and posts holds one more after its platform, if the environment answers as that task's story tells, and the entry is its verdict |
| ProtocolLocks.LocksKept | internal/publish/storage.go:101-119 | The re-check under the store lock and the missing edge from publishing to publishing are what keeps the lock exclusive |
| ProtocolKeys.KeysKept | internal/publish/storage.go:359-400 | Claim, CreateTask and Cleanup in any order keep every task key backed by a task or by the one call that is about to make it |
| ProtocolLedger.StepKeepsLedger | internal/publish/service.go:257-358 | At every point inside the retry loop, status, attempt count, attempt records, post and adapter calls fit together |
| ProtocolLedger.StepTouches | internal/publish/service.go:257-358 | A step of the retry loop touches only its own task, its attempts, its post and its pair |
| ProtocolReports.FoundAtRest | internal/publish/service.go:163-186 | The task that a duplicate finds is the task of its own pair and is not being run by anyone |
| ProtocolRefinement.LoopRefines | internal/publish/service.go:257-361 | The retry loop of the step machine, taken to its end alone, leaves in all three stores and reports exactly what the big-step form computes |
| CallRefinement.CallRefines | internal/publish/service.go:70-120 | Every way in which a call moves alone to its return, with ids, clock readings and adapter answers taken from an environment, leaves exactly the contents, tasks, attempts, posts and leases of the big-step call in that environment, draws as many ids and readings, asks each adapter as often, and reports its entries |
| CallRefinement.CallReturns | internal/publish/service.go:70-120 | There is such a way, in every environment and from all sound stores |
| CallRefinement.PlatformMoves | internal/publish/service.go:123-243 | One platform in small steps fed by the environment, from the registry to its entry, does what the big-step form computes in each of its cases and uses the environment as far |
| PublishService.Service.Publish | internal/publish/service.go:70-120 | The whole call: the resulting stores, adapters, drawn ids and clock are PublishedWorld of the old ones, and the answer is PublishedAnswer, of which PublishTheorems.PublishResult and PostEntries.EntriesCarryPosts say what they mean |
| PublishService.Service.ExecutePlatformTask | internal/publish/service.go:123-243 | Registry, claim, duplicate look-up, task creation, conflict look-up and execution for one platform, with every store it may touch and every entry it may return; PublishTheorems.PlatformCases tells the cases apart |
| PublishService.Service.ExecuteWithRetry | internal/publish/service.go:249-361 | The retry loop: answer, adapter calls, task row, status history, attempts, posts and drawn ids after it, for any adapter |
| PublishService.Service.RunAttempt | internal/publish/service.go:258-357 | One attempt with its bookkeeping; the caller is asked for another one exactly after a retryable refusal with retries left |
| PublishService.Service.BeginAttempt | internal/publish/service.go:262-275 | The attempt is counted, recorded and marked as processing, in that order |
| PublishService.Service.Converse | internal/publish/service.go:277-303 | Validate, upload and publish are called in this order, up to the first that fails |
| PublishService.Service.CreateAndExecute | internal/publish/service.go:190-242 | A conflict returns the existing task; otherwise the new task is executed |
| PublishService.Service.TransitionContent | internal/publish/service.go:364-396 | The write without version succeeds exactly if the status read is the expected one and the edge is in the table |
| PublishService.Service.AggregateStatus | internal/publish/service.go:418-441 | The two counters decide as the declarative rule: published if there are tasks and all succeeded, partially published if some did, failed otherwise |
| PublishTheorems.PublishResult | internal/publish/service.go:70-120 | An answer is given if and only if the content exists and is ready or partially published; one entry per requested platform in order, duplicates included; the status sums up the entries and is the stored one, two versions later; a declined call changes nothing |
| PublishTheorems.AnswersAgreeWithStores | internal/publish/service.go:163-242 | After a call every entry tells status and error stored for its key (dead for a stored processing), nothing stored before is lost or rewritten, and the stores stay sound; if content ids hold no colon, the entry of a registered platform names the task of this content and this platform, and ids stay colon-free |
| PublishTheorems.NamesPairExactly | internal/publish/storage.go:140-202 | For any content ids, the entry of a registered platform names the task of this content and this platform if and only if its key did not index a task of another content or platform before the call |
| PublishTheorems.ColonNamesAnotherPair | internal/publish/storage.go:140-202 | A witness, with a colon in a content id: the keys of a:b on c and of a on b:c coincide |
| PublishTheorems.EmptyStoresAreSound | internal/publish/storage.go:133-139 | The stores a service starts with are sound |
| PublishTheorems.PlatformCases | internal/publish/service.go:123-243 | From any stores, for one platform: an unregistered one changes nothing and is named in the error; a held key or a known pair gives the stored task, or the error that there is none, and changes leases and clock at most; otherwise one task is made for the pair, and its stored status is reported |
| PublishTheorems.LeaseForADay | internal/publish/service.go:142-190 | A registered platform whose key task:content:platform is free or expired leases it for the pair for exactly 24 hours from the second clock reading; no other lease changes |
| PublishTheorems.TransitionsExactly | internal/publish/service.go:364-396 | A content moves from one status to another exactly if it is stored with the first and the path of both is legal; only status and version change, and a second move from the same status is refused |
| PostEntries.EntriesCarryPosts | internal/publish/service.go:206-243 | Post id and address of an entry are those of the post that is stored for its task, which the registered adapter accepted with during the call, exactly for the first entry of a platform whose task is new and succeeded; all other entries leave both empty |
| PublishTheorems.AggregateSummarizes | internal/publish/service.go:418-441 | A content is published exactly if there are tasks and all succeeded, partially published exactly if some did and some did not, failed exactly if none did |
| PublishTheorems.Republish | internal/publish/service.go:163-204 | Publishing the same platforms again calls no adapter and changes no task, attempt or post, whether leases are live, expired or swept and whatever the adapters would answer; the status is the same and so are the tasks. Failed platforms are not retried |
| PublishTheorems.NothingNew | internal/publish/service.go:163-204 | Where every task exists, refused claim and creation conflict give the same entries and change only leases and clock |
| Retry.AttemptsUnique | internal/publish/service.go:257-346 | The number of attempts is the first one that does not call for a retry, or the last one allowed; no other number has these properties |
| Retry.AcceptedWrites | internal/publish/service.go:272-349 | The statuses a task enters are n - 1 times processing and retrying, processing once more, and the terminal status unless that is dead |
| Retry.StoredAgreesWithTold | internal/publish/service.go:280-346 | Status and error stored are the ones returned, and the attempt count rose by 1 to MaxRetries + 1; exhausted retries return dead and leave processing without an error |
| Retry.ToldIsStoredExactly | internal/publish/service.go:280-346 | What is returned is what is stored if and only if some allowed attempt would end without calling for a retry; otherwise dead is returned and processing is stored |
| Retry.AnswersDecide | internal/publish/service.go:257-346 | Read off the answers of the adapter alone: every attempt but the last passed both checks and met a retryable error, and the answers to the last one decide what is told and how often each operation was called |
| Retry.AttemptErrors | internal/publish/service.go:277-322 | The record of each attempt tells the failed check or the refusal it met, and nothing if it succeeded |
| Retry.WaitingTells | internal/publish/service.go:318-349 | Between two attempts the task is stored as retrying, with the refusal that the attempt before met |
| Retry.NothingAllowed | internal/publish/service.go:257-361 | With a negative number of retries nothing is asked or stored, and the loop falls through its end |
| Retry.NeverFallsThrough | internal/publish/service.go:257-360 | With MaxRetries of at least 0 the return after the loop is unreachable, success comes exactly with a result, and dead only after the last attempt |
| Retry.RecordsExactly | internal/publish/storage.go:249-278 | A loop of n attempts adds exactly n records, each under its own id, and keeps all others |
| Retry.AttemptsLedger | internal/publish/service.go:267-322 | All n attempts are closed and numbered 1 to n; the first n - 1 failed, and the last succeeded exactly if the loop did |
| AttemptListing.ListingIsTheLedger | internal/storage/memory.go:300-314 | In the sorting store, whatever the map order, the listing of a task after its loop is the n attempts in the order they were made |
| AttemptListing.UnsortedListingExactly | internal/publish/storage.go:280-292 | The store the loop runs over lists each of the n attempts once; the listing is bound to be in the order of the attempt numbers, as internal/storage/stores.go:74 promises, if and only if n is at most 1 |
| AttemptListing.SortingAttemptStore.GetAttemptsByTask | internal/storage/memory.go:300-314 | The attempts of the task, each once, lowest number first |
| PublishStores.MemoryPublishAttemptStore.GetAttemptsByTask | internal/publish/storage.go:280-292 | The attempts of the task, each once, in some order |
| Sorting.Sort | internal/storage/memory.go:114-116 | A sorted arrangement of the same keys; ties may come in any order |
| Sorting.OneOrder | internal/storage/memory.go:114-116 | Without ties there is only one sorted arrangement |
| PublishStores.MemoryContentStore.CreateContent | internal/publish/storage.go:44-61 | A new draft at version 1 under a fresh id |
| PublishStores.MemoryContentStore.UpdateContent | internal/publish/storage.go:101-119 | Missing content, a positive version that differs, and an edge outside the table are refused in this order and change nothing; otherwise status and version move |
| PublishStores.MemoryPublishTaskStore.CreateTask | internal/publish/storage.go:140-162 | Refused exactly if the index knows the pair; otherwise row and index entry are added, and the caller gets the stored object itself |
| PublishStores.MemoryPublishTaskStore.GetTaskByContentPlatform | internal/publish/storage.go:190-202 | A copy of the task that the index names for the pair |
| PublishStores.MemoryPublishTaskStore.UpdateTaskStatus | internal/publish/storage.go:204-219 | Only edges of the table are taken; the history of the stored task stays a legal path |
| PublishStores.MemoryPublishTaskStore.IncrementAttemptCount | internal/publish/storage.go:221-232 | The count rises by one and nothing else changes |
| PublishStores.MemoryPublishAttemptStore.CreateAttempt | internal/publish/storage.go:249-263 | An open attempt with the given number under a fresh id |
| PublishStores.MemoryPublishAttemptStore.CompleteAttempt | internal/publish/storage.go:265-278 | The attempt is closed with status and error; an unknown one is an error and changes nothing |
| PublishStores.MemoryPlatformPostStore.CreatePlatformPost | internal/publish/storage.go:309-325 | At most one post per task; a second one is a conflict |
| PublishStores.MemoryIdempotencyStore.Claim | internal/publish/storage.go:359-373 | Refused exactly while the lease runs; granted claims run from the second clock reading for exactly the time to live (Leases.LeaseLasts) |
| PublishStores.MemoryIdempotencyStore.Get | internal/storage/memory.go:434-448 | The holder, up to and including the expiry; the clock is read only if there is a lease |
| PublishStores.MemoryIdempotencyStore.Cleanup | internal/publish/storage.go:387-400 | Exactly the leases past their expiry are deleted, in any order of the visit, and counted |
| PublishTables.VersionedWrites | internal/publish/storage.go:101-119 | The refusals in their order, all that an accepted write changes, and that of two writes with one positive version at most one is accepted |
| PublishTables.CreateThenLookUp | internal/publish/storage.go:140-202 | A created task is pending, without attempts or error and with three retries, is what a look-up of its pair finds, and is not created twice |
| PublishTables.StatusWrites | internal/publish/storage.go:204-219 | A status write changes status and error of its task and nothing else, exactly if the step is a legal path |
| Contracts.TaskHistories | internal/contracts/state.go:25-74 | On any path of the task table every status but the last is active, terminal means no way on, and dead comes only from retrying |
| Contracts.ContentHistories | internal/contracts/content.go:22-54 | A history along the content table goes on exactly so: to publishing from ready or partially published, out of it to published, partially published or failed, to ready from draft, to draft from failed, to archived from published or partially published; archived is its only end |
| Contracts.TaskSteps | internal/contracts/state.go:25-58 | The ways into each task status, likewise; a task is pending only at first |
| Keys.GenerateID | internal/storage/types.go:65-73 | Patching two bytes of the buffer in place gives the formatted version 4 id of the draw |
| Keys.GeneratedIDs | internal/storage/types.go:65-73 | Ids have 36 characters, show version 4, hold no colon, and are equal exactly if the draws agree on all bits that are kept (section 5.4 of RFC 9562) |
| Keys.IDShows | internal/storage/types.go:65-73 | Every byte of the stamped draw is shown by two lower-case hexadecimal digits at its place, between four dashes |
| Keys.JoinInjective | internal/publish/service.go:142 | contentID:platform determines both parts if content ids hold no colon |
| Keys.CollisionExactly | internal/publish/storage.go:144 | Two content ids can share a key of the index if and only if one of them, with its separator, begins the other |
| Leases.CleanupInvisible | internal/publish/storage.go:359-400 | Under a clock that never goes back, a trace with Cleanup calls anywhere gets the same Claim and Get answers as without them, also from stores that differ only in swept leases |
| Leases.CleanupsDoNotMatter | internal/storage/memory.go:413-463 | Two traces that differ only in their Cleanup calls get the same answers |
| Leases.TakenOverAndAnswering | internal/publish/storage.go:363-384 | Exactly at its expiry a lease both answers Get and may be taken over; at every instant one of the two holds |
| Leases.ClaimsSpaced | internal/publish/storage.go:359-373 | Of two successful claims of one key, the later one is tested no earlier than the time to live after the earlier one was stored, whatever happens in between; Leases.LeaseLasts says exactly when a claim succeeds |
| Leases.LeaseLasts | internal/publish/storage.go:359-384 | After the last successful claim of a key, a claim succeeds if and only if its clock reading is at least the second reading plus the time to live of that claim, and a Get answers with the holder if and only if it is at most that, with Cleanup calls anywhere in between |
| Leases.NeverClaimed | internal/publish/storage.go:359-384 | A key without a successful claim is free, and a Get of it finds nothing |
| Leases.CleanupExactly | internal/publish/storage.go:387-400 | Cleanup removes a lease if and only if its expiry has passed |
| Leases.EncodingsAgree | internal/storage/memory.go:413-438 | Over separable scopes, scope:key and key:scope answer every trace alike |
| Leases.EncodingsAgreeExactly | internal/publish/storage.go:363-384 | They answer every trace over a set of scopes alike if and only if no scope with its separator behind it begins another one and none with its separator before it ends another one |
| Leases.ColonFreeScopesAreSeparable | internal/contracts/policy.go:84-87 | Colon-free scopes, such as the three declared ones, are separable |
| Leases.ColonInScopeTellsThemApart | internal/storage/memory.go:417 | A witness: with the scopes a and a:b one encoding refuses a claim that the other grants |
| TaskIndex.IndexRefinesScan | internal/publish/storage.go:140-202 | Over content ids that cannot collide, the indexed store answers every trace of creations, look-ups, status writes along the table and counts like the scanning store, with at most one task per pair |
| TaskIndex.SameAnswersExactly | internal/storage/memory.go:173-234 | The two stores answer alike on all such traces if and only if no two of the content ids can share a key |
| TaskIndex.ColonFreeIDsDoNotCollide | internal/publish/storage.go:15-22 | Colon-free ids cannot |
| TaskIndex.UpdatesAgreeExactly | internal/storage/memory.go:236-248 | The two stores answer a status write alike, and then store the same, if and only if the task is unknown or the write follows the transition table |
| TaskIndex.DeadWriteTellsThemApart | internal/publish/service.go:343 | A witness: the write of dead with which a loop out of retries ends |
| TaskIndex.ScanningTaskStore.CreateTask | internal/storage/memory.go:173-195 | Refused exactly if some task of the pair is found |
| TaskIndex.ScanningTaskStore.GetTaskByContentPlatform | internal/storage/memory.go:224-234 | The answer does not depend on the order of the visit if pairs are unique |
| TaskIndex.ScanningTaskStore.Scan | internal/storage/memory.go:228-232 | The loop finds a task of the pair exactly if there is one |
| StorageContent.VersionedContentStore.UpdateContent | internal/storage/memory.go:136-151 | Compare and set on the version; no transition check |
| StorageContent.SnapshotWrites | internal/storage/memory.go:136-151 | The two refusals, all that an accepted write changes, and that a second write with the same version is refused |
| VersionedContent.VersionsCountUpdates | internal/storage/memory.go:136-151 | In every interleaving the version is one more than the accepted updates, every version below it was accepted exactly once, and a version of 0 or less never is |
| VersionedContent.NoLostUpdate | internal/storage/memory.go:136-164 | An update with a fetched version is accepted exactly as long as no other update was accepted since the fetch |
| VersionedContent.DisciplineIsEnough | internal/contracts/content.go:22-54 | Clients that check the table on their snapshot walk every content along it in every interleaving, although the store never checks |
| VersionedContent.SnapshotDecides | internal/storage/memory.go:136-151 | An accepted write with the version of a snapshot keeps all paths legal if and only if the snapshot has an edge to the new status, which the client can check before |
| VersionedContent.LegalExactly | internal/storage/memory.go:136-151 | After any run all contents have walked along the table if and only if every accepted write took an edge from the status it found |
| VersionedContent.StoreDoesNotCheckTransitions | internal/storage/memory.go:136-151 | A witness: a draft written as published |
| StorageContent.Normalize | internal/storage/types.go:19-30 | Limits end up in 1 to 100 and offsets at 0 or more; a page is left as it is exactly if it was normal |
| StorageContent.VersionedContentStore.ListContent | internal/storage/memory.go:101-134 | The page of some listing (each content of the status once, newest first), with slice bounds always in range |
| StorageContent.PageShows | internal/storage/memory.go:101-134 | A page of any listing holds contents of the status, newest first, and exactly as many as there are from its offset on, within its limit |
| Paging.PagesMakeTheListing | internal/storage/memory.go:101-134 | Without two contents of one age, the pages of any normal size put together are the one listing, however each call iterated and sorted |
| Paging.PagesReliableExactly | internal/storage/memory.go:114-131 | A reader of all pages sees each content exactly once, whatever the orders, if and only if no two contents of the status have the same age |
| Policy.BackoffMonotone | internal/contracts/policy.go:61-79 | Without jitter the backoff of a validated policy never shrinks, is at least the initial and at most the maximal delay; Policy.BackoffExactly says which it is |
| Policy.BackoffExactly | internal/contracts/policy.go:61-79 | The backoff of a validated policy that fits is the floor of the initial delay times the multiplier to the power of the attempt (0 for a negative one), or the maximal delay exactly if there is one and that floor exceeds it; jitter adds the drawn part of a quarter before the truncation |
| Policy.DefaultBackoffs | internal/contracts/policy.go:27-79 | At draw 0 the default policy waits 1, 2, 4, ... 256 seconds and five minutes from attempt 9 on, and an eighth more at draw one half |
| Policy.ValidateReports | internal/contracts/policy.go:40-57 | A policy is refused with the first of the five faults that it has, and accepted exactly if it has none |
| Policy.JitterBounds | internal/contracts/policy.go:72-78 | Jitter only adds, and at most a quarter of the capped delay before truncation |
| Policy.WithinQuarterExactly | internal/contracts/policy.go:68-78 | Five quarters of the truncated delay bound every draw if and only if no whole nanosecond lies between the two ways of truncating |
| Policy.WholeMultiplierWithinQuarter | internal/contracts/policy.go:66-78 | For whole multipliers, such as the default, that always holds |
| Policy.FractionalMultiplierOvershoots | internal/contracts/policy.go:66-78 | For a fractional multiplier it can fail: the cap test looks at the truncated delay |
| Policy.TotalBelowGeometric | internal/contracts/policy.go:61-79 | The waits of n attempts stay below the closed form of the geometric series, times 5/4 with jitter |
| Policy.TotalBelowCap | internal/contracts/policy.go:68-78 | And, with a cap, at most n times the cap, for any multiplier without jitter; times 5/4 with jitter for every whole multiplier |
| Policy.TotalBelowNext | internal/contracts/policy.go:61-79 | For any multiplier, with jitter, at most 5/4 of n times the first whole nanosecond above the cap |
| Policy.NeverAboveExactly | internal/contracts/policy.go:61-79 | A bound on the total wait, such as 5/4 of n times the cap, holds for all draws if and only if it holds for one sum that the policy determines |
| Policy.FractionalTotalOvershoots | internal/contracts/policy.go:66-78 | A witness against 5/4 of n times the cap: a multiplier of 1.18, a cap of 5 ns and two attempts wait 13 ns |
| Policy.DefaultPolicyRange | internal/contracts/policy.go:27-79 | The default policy is valid and stays inside 64-bit durations exactly through attempt 33 |
| Mock.MockPlatform.Publish | internal/platform/mock/mock.go:143-175 | The call is recorded and counted, and the answer depends on the new count only |
| Mock.AcceptedResult | internal/platform/mock/mock.go:143-175 | A loop that succeeds tells the configured result, or else the default one with the number of its last Publish call |
| Mock.DefaultPosts | internal/platform/mock/mock.go:163-175 | Default post ids are equal exactly if the numbers of the calls are; the first one is spelled out |
| Mock.FlakyMock | internal/platform/mock/mock.go:143-175 | With counter a and f > 0 retryable failures the loop asks min(max(f - a, 0) + 1, MaxRetries + 1) times and succeeds if and only if max(f - a, 0) <= MaxRetries; otherwise it tells dead |
| Mock.EndlessMock | internal/platform/mock/mock.go:156-162 | Without a positive number of failures a retryable error exhausts every retry |
| Mock.EndlessMockIsStoredProcessing | internal/publish/service.go:340-346 | A witness for told and stored parting: against such an adapter a task is told dead and stays processing |
| Mock.PermanentMock | internal/platform/mock/mock.go:156-162 | Any other error ends the loop with its first attempt, in success only if the failures were used up before |
| Mock.FailingChecks | internal/platform/mock/mock.go:124-139 | A configured validation error ends the loop with its first attempt before any upload, a configured upload error before any Publish, and the task fails with that error |
| Handler.TaskHandler.HandlePublish | internal/queue/handler.go:80-143 | The calls made in one delivery, in order, and what is returned, for any answers of guard, store and publisher |
| Handler.TaskHandler.HandleFailure | internal/queue/handler.go:147-169 | A permanent error (which ones: Handler.FailuresDecided) writes dead and returns nil, any other is returned |
| Handler.FailuresDecided | internal/queue/handler.go:145-194 | When the publisher fails: if the first platform error is not retryable, or else the first application error is a validation, not-found or forbidden one, dead is written last and nil returned; in all other cases dead is not written and the error is returned for another delivery |
| Handler.ReturnsTell | internal/queue/handler.go:80-169 | What is returned, told by the last effects: nil exactly after a duplicate, a completion or giving up, and else the call that went wrong |
| Handler.DeliveryOrder | internal/queue/handler.go:80-169 | The publisher is called only directly after processing was accepted in that delivery, succeeded is written only after the result was recorded, dead only after a permanent error |
| Handler.Conservation | internal/queue/handler.go:92-168 | Over any deliveries, started = completed + failed + hits + returned store errors, and dead = failed deliveries that returned nil |
| Handler.NoSecondAttempt | internal/queue/handler.go:110-168 | Over a store that keeps to the table, of deliveries one after the other at most one calls the publisher: after a failed one every redelivery is refused at its first write, and dead is never stored |
| Handler.FirstToPassDecides | internal/queue/handler.go:94-143 | Over such a store the first delivery that the guard does not hold back calls the publisher, exactly one does, and it decides what is stored: succeeded, or processing for good |
| OverlappingDeliveries.OnePublisherCall | internal/queue/handler.go:110-168 | The same for deliveries that overlap in any way: at most one ever calls the publisher, dead is never stored, and each one is the beginning of a delivery of its own |
| OverlappingDeliveries.WritesDecided | internal/queue/handler.go:110-168 | In every interleaving the first write of processing is accepted, every write of dead is refused, no write of succeeded is, and succeeded is stored exactly if a delivery wrote it |
| Handler.CallsPublisherMeans | internal/queue/handler.go:94-117 | A delivery calls the publisher exactly if the guard lets it pass and processing is accepted |
| Handler.PublisherCallsSpaced | internal/queue/handler.go:94-117 | With the in-memory guard, two deliveries of one content and platform that call the publisher acquired their lease at least ten minutes apart |
| Handler.RedeliveryPasses | internal/queue/idempotency.go:78-88 | With colon-free content ids, a redelivery of a content to a platform passes the guard if and only if its clock reading is at least ten minutes after the second reading of the last delivery of that pair that passed; it then calls the publisher exactly if processing is accepted |
| Handler.FirstDeliveryPasses | internal/queue/handler.go:94-108 | The first delivery of a pair passes the guard |
| Handler.InMemoryIdempotencyGuard.Acquire | internal/queue/idempotency.go:78-88 | Acquire is a claim without a holder; when redeliveries pass, Handler.RedeliveryPasses says |
| Handler.InMemoryIdempotencyGuard.Release | internal/queue/idempotency.go:91-97 | The key is removed and no other |
| Api.PublishHandler.HandlePublish | internal/api/handlers.go:61-143 | A valid request ends with one pending task per platform at its first mention, the enqueuer called for each, the content, with trimmed title and body, publishing at version 3; the branch without any task is unreachable. An invalid request changes nothing and lists all its faults |
| Api.PublishHandler.CreateTasks | internal/api/handlers.go:96-132 | The loop creates, enqueues and lists the first occurrences in order, whatever the enqueuer answers |
| Api.PublishHandler.ValidatePublishRequest | internal/api/handlers.go:197-224 | A request is accepted exactly if, after trimming, title and body are not empty, the title has at most 200 bytes, and there is a platform |
| Api.TrimSpaceMeans | internal/api/handlers.go:200-207 | Trimming takes off both ends all white space and nothing else |
| Api.SpacesAre | internal/api/handlers.go:200-207 | White space is what Unicode has as such, code point by code point |
| Api.ByteLengthAdds | internal/api/handlers.go:203 | The length that is compared with 200 counts bytes: lengths of parts add up, and each character alone has one to four |
| Api.FirstsInOrder | internal/api/handlers.go:98-106 | The created platforms are exactly the requested ones, each once, ordered by first mention |
| Api.EachEnqueuedOnce | internal/api/handlers.go:108-131 | Every task of the response is pending and is enqueued by exactly one call, with its id and three retries |
| Api.BatchIsStored | internal/api/handlers.go:96-132 | Every listed task is stored under its id, pending, for the new content and its own platform; no stored task changes |

## Left out

- PublishService.Service.Publish: creation and update times and the metadata of contents are not modelled; the document passed to the adapter is not, because adapters may answer anything.
- PublishService.Service.ExecuteWithRetry: error texts are kept as the words they are put together from, not as formatted strings; the computed backoff is only logged by the code and has its own module.
- PublishService.Service.CreateTask: the handle is the stored object, but no other holder of handles writes to it.
- ProtocolTheorems.AtMostOnce: runs in which other actors move contents into or out of publishing are excluded, because the service has no defence against them.
- PublishTheorems.Republish: needs the same registered platform names at both calls; the adapters behind them may differ.
- Policy.BackoffMonotone: exact reals instead of 64-bit floats, and only delays that fit 64-bit durations.
- Handler.PublisherCallsSpaced: deliveries are ordered by their Acquire, which is atomic; what they do afterwards may overlap.
- Api.PublishHandler.HandlePublish: decoding and the HTTP status are left out; other requests do not run at the same time.
- Sorting.Sort: one way to sort, standing for the library's; nothing is used of it but that its result is sorted.
- OverlappingDeliveries.OnePublisherCall: writes of anybody but the handler to the task are left out; the guard answers as it likes.
- CallRefinement.CallRefines: the post's id and address in an entry are not compared, because the step machine does not report them; the posts themselves are.
- Serializability.Serializable: leases are not compared, because a serial clock cannot show what the interleaved one did; and the environment may draw a post's id twice, because the step machine compares drawn ids with tasks and attempts only.
- Serializability.History: calls that were declined leave nothing behind and are not part of the serial order; one that was declined because another held the lock need not be declined there.
- PublishStores.MemoryIdempotencyStore.Claim: the store of internal/publish and the one of internal/storage are one class with a flag for the order of the key's parts.
- The scope of a claim is any string; the code knows three.
- Status strings outside the declared constants, which the transition tables treat as having no way on.
- The registry of platforms is a fixed map from names to adapters.
- Simple getters, the asset stores and the task and post listings: they would only add easy members.
- MemoryTx.Run, which calls its function without any rollback.
- Asynq, Redis, the worker, the dead-letter inspector, logging, configuration, templates and the main packages.
- The document conversion and the intermediate representation of documents: field copies.
