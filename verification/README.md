# Fable: verified models of leases, delivery, storage and merging

Fable splits chat into three roles. Logic keeps leases and messages, Comet keeps live connections, Job delivers queued
messages; a browser merges what reaches it. This project models the parts that have to agree with each other and proves
what each promises the others. It is written in Dafny 4.11; `dafny verify dfyconfig.toml` checks all of it.

| Part of the system | Modules |
|---|---|
| Redis lease script and its store | `LeaseScript` (one function per operation), `RoutingStore` (the mutable store, proved against those functions), `LeaseEffects` (what each operation does, said of the records alone), `LeaseRuns` (whole runs), `LeaseExpiry` (physical expiry) |
| Comet's instance loop and the distributed lease | `CometInstance`, `LeaseSafety` |
| Push tasks and Job's decoder | `PushTasks`, `UnicodeEscapes`, `RouteToken`, `Identifiers`, `Decimal`, `ByteOrder` |
| Job's delivery engine, consumer and replay | `DeliveryEngine` (types, validators, call traces), `DeliverySteps` (what a round does to each recipient), `DeliveryRun` (the engine, proved against both, with `DeliveryLemmas`), `DeliveryMeaning` (what a run means for one user), `PartitionConsumer`, `Replay` |
| Message store and synchronisation | `MessageTable` (concurrent transactions), `MessageRuns` (guarantees over runs), `MessageAudience` (who a message goes to), `MessageAuthority` (who is let through, and who is refused with what), `MessageProgress` (requests that run to their answer), `Paging`, `SyncCursor` |
| Logic's dispatch | `Dispatch` |
| Comet's hub | `CometHub` |
| Browser merge state | `ChatMerge` |
| Where they meet | `Agreement` |

How the parts meet: a saved message and its recipients satisfy `MessageRuns.Deliverable` (`SavedIsDeliverable`), which is
what `Dispatch.Dispatch` asks for; what dispatch publishes decodes in Job (`TaskDecodes`), whose consumer and replay are
proved over the same `PushTasks.Decode`. Route hints come from the very lease script the fences are proved about.
`Agreement` proves that what one part sends, the next one's own checks accept: Logic's lookups and resolutions pass Job's
validators, every delivery Job makes for a decoded task passes the hub's validation, the hub's answers pass Job's, and the
browser accepts every page that Logic can read for it.

## Reading the models

- Code that changes state step by step is a class or a method with loops. Its contract ties the new state to a function
  of the old one, and the lemmas are about that function.
- Anything from outside (an RPC or broker answer, a clock, a cancelled context, another process) is an arbitrary input:
  the engine takes a `World`, the consumer and the dispatch an `Outside`, a delivery in the hub one `Moment` for each
  target. A method reads what it is told there and cannot make it up. The code's own validators decide what to believe.
  Methods keep a ghost trace of what was asked and answered, and the theorems speak about that trace.
- A function that specifies a method is never the last word: lemmas say in terms of the stored records, the recipients'
  fields or the calls made when it takes which branch and with what effect.
- Leases and the message table are transition systems: states, events that are possible in a state, and a next state for
  each. Theorems hold for every finite sequence of events, so for every interleaving.

## Assumptions

- Time is an integer. Redis's clock does not go back, and with a lifetime added it stays below 10^14 ms (the year 5138):
  the script keeps deadlines as JSON numbers, and its JSON library writes fourteen digits.
- SHA-256 is injective: digests and fingerprints are the tuples they are computed from.
- JSON is a lossless codec: a payload is its size, its spelling and the object a strict reader finds in it. The size of
  an encoded task is computed byte by byte, with Go's escapes. The cursor's JSON reader is a parameter that reads back
  what the encoder writes (`SyncCursor.ReaderExists` shows that there is such a reader).
- Strings are byte strings, as in Go.
- MySQL row locks are held until commit or rollback, the locked transaction's reads see committed rows, and an
  auto-increment id is never handed out twice. Everything else about users, sessions, groups and access may change at any
  moment, and any transaction may fail, vanish or commit without its caller hearing of it.
- Redis drops a record only after its expiry, at any later time or never.

## Results that restrict what the code can promise

- **An authentication time of zero.** The route record leaves out a zero, so the script fails on its absence when an
  instance would take such a connection. `LeaseScript.ExecuteKeepsIntact` proves that this is the only call that fails
  on a store whose records are valid.
- **Wall clock and replay.** The consumer stores both attempt times after `UTC()`, which drops Go's monotonic reading,
  and replay refuses a letter whose last attempt is before its first. So a dead letter written after the wall clock
  stepped back cannot be replayed. `Replay.UnresolvedIsReplayable` proves that this is the only case.
- **Cursors made up by a client.** A cursor that is well formed but names an id not handed out yet is accepted, and the
  next message can land behind it. `MessageRuns.CursorSafeIff` proves that a page's cursor is safe for ever exactly if
  the request's position is at most the last id handed out; cursors the service itself gave out always are.
- **The five-second margin.** It has to cover one direction only: Redis may be at most five seconds ahead of the reading
  a Comet takes, and may be behind by any amount. `LeaseSafety.MarginIsTight` gives a run that breaks at 5001 ms.
- **The payload limit.** The 256 KiB check never fires on a valid task (`PushTasks.ValidTaskFits`), so the dispatch branch
  for it is reachable only if the number of chunks does not fit in 32 bits. `Dispatch.TasksDecodeIff` shows that this
  number is also the exact limit up to which Job accepts every chunk.

## Model

| member | source | states |
|---|---|---|
| Identifiers.LuaUuidIsValidUuid | internal/logic/routing/scripts.go:18-23 | The script's UUID test, which deletes dashes and counts, accepts exactly the UUIDs Go's parser accepts |
| RouteToken.LuaTokenIsGoToken | internal/logic/routing/scripts.go:30-37 | The script's character-class and length test accepts exactly the tokens Go accepts by decoding and encoding again |
| RouteToken.GoTokenMeaning | internal/logic/routing/store.go:145-151 | A token is accepted exactly if it is the canonical unpadded base64url text of 16 to 96 bytes (sections 3.5 and 5 of RFC 4648) |
| RouteToken.SpellingDecodes | internal/logic/routing/store.go:149-150 | Decoding inverts encoding for every byte string |
| LeaseScript.RoundTtlCovers | internal/logic/routing/store.go:46-51 | A lifetime becomes the least whole number of milliseconds covering it, never zero, and zero means one minute |
| LeaseScript.LuaAcceptsGo | internal/logic/routing/scripts.go:38-49 | What Go lets through as a connection (with its own token test, decoding and encoding again) is exactly what the script's check of stored routes accepts |
| LeaseScript.ExecuteKeepsIntact | internal/logic/routing/scripts.go:38-53 | No operation leaves a record that a later read would reject, and a call on valid records fails exactly if it is a connect with authentication time zero that its instance would take |
| LeaseScript.LookupAnswersItsUsers | internal/logic/routing/store.go:264-292 | Whatever is stored, a lookup that answers does so in request order; an online answer is that user's own well-formed tuple, live and within its authentication; it fails only on records no call leaves |
| RoutingStore.LeaseStore.constructor | internal/logic/routing/store.go:42-54 | A new store is empty and its lifetimes are rounded up |
| RoutingStore.LeaseStore.SaveInstance | internal/logic/routing/scripts.go:51-53 | An instance record is stored under its own key, and only with a positive expiry |
| RoutingStore.LeaseStore.SaveRoute | internal/logic/routing/scripts.go:51-53 | A route record is stored under its own user, and only with a positive expiry |
| RoutingStore.LeaseStore.Register | internal/logic/routing/scripts.go:62-70 | The in-place registration is the atomic step the run theorems are about: same boot and address extend, another live one conflicts |
| RoutingStore.LeaseStore.Renew | internal/logic/routing/scripts.go:71-77 | The in-place renewal is the atomic step: own live lease only, draining is never cleared |
| RoutingStore.LeaseStore.Unregister | internal/logic/routing/scripts.go:78-83 | The in-place removal is the atomic step: own live lease only, otherwise it says why not |
| RoutingStore.LeaseStore.Connect | internal/logic/routing/scripts.go:84-93 | The in-place connect is the atomic step, with its three refusals, the deadline capped by authentication and the live predecessor returned |
| RoutingStore.LeaseStore.Check | internal/logic/routing/scripts.go:94-104 | Check and heartbeat are the atomic step, refusals in the script's order, extension by heartbeat only |
| RoutingStore.LeaseStore.Disconnect | internal/logic/routing/scripts.go:105-110 | The in-place disconnect is the atomic step: the very tuple only |
| RoutingStore.LeaseStore.Lookup | internal/logic/routing/scripts.go:111-120 | The lookup loop gives each user's answer in order, or fails as a whole on a corrupt record |
| RoutingStore.LeaseStore.Resolve | internal/logic/routing/scripts.go:121-130 | The resolve loop gives each instance's answer in order, or fails as a whole |
| RoutingStore.LeaseStore.Run | internal/logic/routing/store.go:83-114 | Refused arguments never reach the store; every other call is its operation |
| LeaseEffects.RegisterEffect | internal/logic/routing/scripts.go:62-70 | Refused exactly if another boot or address holds a live lease; otherwise the record is the caller's with a full lifetime, draining exactly if its own live lease was, and nothing else changes |
| LeaseEffects.RenewEffect | internal/logic/routing/scripts.go:71-77 | Succeeds exactly for the boot that holds the live lease, with a full lifetime, the same address and the draining flag or-ed |
| LeaseEffects.UnregisterEffect | internal/logic/routing/scripts.go:78-83 | Removes exactly a live lease held by the boot; the two other outcomes have their own conditions |
| LeaseEffects.ConnectEffect | internal/logic/routing/scripts.go:84-93 | Each of the four refusals and the success has its exact condition; the route gets the smaller of a full lifetime and its authentication, and the live predecessor is returned, whatever it is |
| LeaseEffects.CheckEffect | internal/logic/routing/scripts.go:94-104 | Each refusal has its exact condition; success returns the stored route, and nothing changes either way |
| LeaseEffects.HeartbeatEffect | internal/logic/routing/scripts.go:94-104 | A heartbeat succeeds exactly for the stored live tuple whose boot holds the live lease; reply and stored route then carry the smaller of now plus the lifetime and the authentication, and nothing else changes |
| LeaseEffects.DisconnectEffect | internal/logic/routing/scripts.go:105-110 | Removes exactly the very tuple while it is live; the two other outcomes have their own conditions |
| LeaseEffects.LookupEffect | internal/logic/routing/scripts.go:111-120 | A user is online exactly if its route and authentication are live and its boot holds the live lease, draining or not; otherwise exactly one of the three reasons, each with its condition |
| LeaseEffects.ResolveEffect | internal/logic/routing/scripts.go:121-130 | An instance is available exactly with a live lease, draining or not, which is returned as stored; otherwise one of two reasons |
| LeaseEffects.BadRecordFails | internal/logic/routing/scripts.go:38-50 | On any store a call whose first record fails the script's checks fails and changes nothing |
| LeaseEffects.StaysOnline | internal/logic/routing/scripts.go:84-120 | Over whole runs by anybody: a tuple that connected or sent a heartbeat, and was neither replaced nor disconnected, stays accepted and is looked up as online for a full lifetime within its authentication, while its boot holds the instance |
| LeaseRuns.RunKeepsIntact | internal/logic/routing/scripts.go:38-53 | Over whole runs of any calls by anybody, stored records stay valid |
| LeaseRuns.FencedRun | internal/logic/routing/scripts.go:62-83 | While a boot's lease stays live no other boot's call alters it; its own calls never clear draining, move the deadline back or change the address |
| LeaseRuns.SupersededForever | internal/logic/routing/scripts.go:84-120 | Once another tuple was connected for a user, the old tuple can never check, heartbeat, disconnect or be looked up until it reconnects |
| LeaseRuns.RouteHasOrigin | internal/logic/routing/scripts.go:84-104 | A stored route is what the last accepted connect of its user installed, at most extended |
| LeaseRuns.LookupIsFenced | internal/logic/routing/scripts.go:111-120 | A lookup returns a route only while the boot that accepted it holds the live lease of its instance |
| LeaseExpiry.PurgedStep | internal/logic/routing/scripts.go:50-53 | One call on a store that dropped expired records, beside a twin that never drops any: replies agree and the stores stay related |
| LeaseExpiry.ExpiryIsInvisible | internal/logic/routing/scripts.go:50-61 | Over whole runs with arbitrary purging, replies are equal except superseded/expired and the two "none"/"expired" reasons |
| LeaseExpiry.LiveStateIsEqual | internal/logic/routing/scripts.go:50-53 | At every call of a run and after it, with arbitrary purging, live leases and routes are the same in both stores, with the same contents |
| CometInstance.ValidateLease | internal/comet/instance.go:204-213 | A lease is accepted exactly if instance, boot, address and draining flag are this process's own and its deadline lies ahead by more than the margin, which the safe deadline keeps |
| CometInstance.InstanceLoop.constructor | internal/comet/instance.go:69-70 | A process starts unregistered and not ready |
| CometInstance.InstanceLoop.Finish | internal/comet/instance.go:129-137 | Stopping clears ready and closes the hub |
| CometInstance.InstanceLoop.Start | internal/comet/instance.go:80-105 | Registration ends ready only with an acceptable lease, no cancellation, no drain and an open hub |
| CometInstance.InstanceLoop.Run | internal/comet/instance.go:126-203 | The renewal loop over any sequence of timer, drain, cancellation and reply ends in the state the turns lead to, which LeaseSafety.TurnsAreSteps makes steps of the distributed model |
| CometInstance.RegisterDecides | internal/comet/instance.go:53-105 | After registration a process waits, ready, exactly with its own acceptable lease, without cancellation, drain or closed hub; otherwise it has stopped and closed the hub |
| CometInstance.WaitDecides | internal/comet/instance.go:139-168 | It asks again, with its present draining flag, exactly while its lease is good and nothing ends it |
| CometInstance.RenewDecides | internal/comet/instance.go:169-202 | A renewal in time with its own lease makes it ready again unless it drains, also after transient errors; a transient error leaves it waiting, not ready, on the lease it has; anything else ends it |
| CometInstance.StopAndDrainAreFinal | internal/comet/instance.go:107-122 | A stopped or draining process never reports ready again |
| LeaseSafety.InvAlways | internal/comet/instance.go:53-229 | In every state of every run, whatever is lost, repeated or late, a trusted lease is covered by what Redis stores |
| LeaseSafety.ReadyHoldsLease | internal/comet/instance.go:107-122 | A process that reports ready holds, in Redis, a live lease on its instance under exactly its boot, if Redis is at most five seconds ahead of its clock |
| LeaseSafety.ReadyIsExclusive | internal/comet/instance.go:107-122 | Two processes of one instance name are never both ready within the margin |
| LeaseSafety.MarginIsTight | internal/comet/instance.go:204-213 | At five seconds and one millisecond the guarantee fails: a run for every valid process |
| LeaseSafety.TurnsAreSteps | internal/comet/instance.go:126-203 | Whatever turns the renewal loop takes, on answers somebody was granted, a run of the distributed model's steps takes the process through them from the same start to the same state |
| LeaseSafety.OthersLeaveProcess | internal/comet/instance.go:53-229 | No step of Redis, of time or of another process changes a process, so its own steps may be spread over any run |
| ByteOrder.SortedUnique | internal/logic/messagestore/store.go:253-264 | Sorting a copy and compacting it in place gives the one strictly ascending list of the same strings |
| ByteOrder.SortedSetFixpoint | internal/logic/messagestore/store.go:265-285 | Exactly the strictly ascending lists are left as they are |
| Decimal.CanonicalText | internal/job/task.go:231-236 | Reading a number and insisting on writing it back accepts exactly the canonical spellings of 64-bit numbers |
| UnicodeEscapes.ValidUnicodeEscapes | internal/job/task.go:100-135 | The escape scan accepts a text exactly if it cuts into complete tokens whose surrogates are all properly paired |
| PushTasks.CheckRecipients | internal/job/task.go:64-73 | The recipient loop accepts exactly strictly ascending lists of user ids, both ends of the conversation only if direct |
| PushTasks.CheckTargets | internal/job/task.go:74-80 | The hint loop accepts exactly at most one well-formed connection for each recipient |
| PushTasks.CheckSubset | internal/job/task.go:90-96 | The pending loop accepts exactly subsets without repetition |
| PushTasks.DecodeTask | internal/job/task.go:29-98 | The decoder, check by check, accepts exactly the valid documents and reads them unchanged |
| PushTasks.DecodeMarshal | internal/job/task.go:29-98 | A decoded task written again decodes to the same task |
| PushTasks.ValidTaskFits | internal/logic/dispatch.go:35-42 | No valid task exceeds 256 KiB, whatever its text needs in escapes |
| DeliveryEngine.TrackedCall | internal/job/routing.go:36-127 | What ties every recipient to the calls made is kept by each call whose answer the new states reflect |
| DeliveryEngine.GoodTraceCall | internal/job/routing.go:19-127 | A call that asks unresolved users only, each once, and has no counterpart in its round keeps the trace free of repeats, second repairs, second calls and ungrounded deliveries |
| DeliveryEngine.OneOutcome | internal/job/routing.go:19-127 | In such a trace no user is settled in two ways |
| DeliveryRun.Run.Mark | internal/job/routing.go:159-163 | Exactly the batch gets the reason |
| DeliveryRun.Run.Repair | internal/job/routing.go:164-174 | Exactly the batch loses its route and is flagged for repair with the reason |
| DeliveryRun.Run.RpcFailure | internal/job/routing.go:195-223 | Permanent errors stop the batch; the last directive decides between repair and mere retry |
| DeliveryRun.Run.Eligible | internal/job/routing.go:178-194 | For the clock's two readings: an expired lease repairs all, an expired route repairs its recipient, and what is kept is exactly the others, in order |
| DeliveryRun.Run.SelectLookups | internal/job/routing.go:20-31 | Selects exactly the unresolved, unstopped recipients without route, in order, except those whose repair is spent, which are stopped; nobody else changes; says whether one asks for repair |
| DeliveryRun.Run.Lookup | internal/job/routing.go:130-157 | One lookup call for exactly the batch, labelled with those under repair; each recipient gets what the answer's entry for its user says if the answer is valid, the failure otherwise |
| DeliveryRun.Run.LookUpRoutes | internal/job/routing.go:20-42 | The lookup half of a round, recipient by recipient: at most one call, made exactly if somebody needs it; a repair spends the task's budget before it asks, and whoever stays without route is given up |
| DeliveryRun.Run.Group | internal/job/routing.go:43-53 | The groups are exactly the unresolved, unstopped recipients with a route, each in its route's instance, in order: none missing, none twice, no group empty |
| DeliveryRun.Run.ResolveAndDeliver | internal/job/routing.go:57-127 | The delivery half of a round, recipient by recipient: one resolution for exactly the groups' instances, a turn for each instance in its order, and whoever had no turn when time ran out is left alone |
| DeliveryRun.Run.FailGroups | internal/job/routing.go:61-73 | Without a valid resolution every routable recipient carries the failure, and nobody else changes |
| DeliveryRun.Run.DeliverGroups | internal/job/routing.go:75-127 | One turn for each instance, in order, up to the end or to the moment time ran out, each on the recipients as they were resolved |
| DeliveryRun.Run.DeliverTo | internal/job/routing.go:84-126 | One instance's turn: two eligibility checks with the dialling between them; a delivery goes out exactly if somebody passes both and time is left, and carries exactly their routes, in order; each recipient ends as its check, the dialling or its own validated result says |
| DeliveryRun.Run.Round | internal/job/routing.go:19-128 | A round is its lookup half and its delivery half, and the calls it adds are at most one lookup, at most one resolution and the turns' deliveries, no two of them to one instance |
| DeliveryRun.RunRounds | internal/job/processor.go:158-182 | At most three rounds, each starting where the one before ended, with somebody unresolved, not stopped, and not waiting for a spent repair; with time and rounds left it ends only when there is nobody such |
| DeliveryRun.Report | internal/job/processor.go:183-188 | One result for each recipient in order, settled exactly as some validated answer settled it; unresolved ones without a reason ran out of budget |
| DeliveryRun.Process | internal/job/processor.go:136-193 | For any outside: the result follows from a history of rounds whose early end leaves everybody settled, stopped, or waiting for a repair that was made; a user is reported with an outcome if and only if some validated answer settled it so, unresolved exactly with a reason; settled users are never asked again, one repair lookup a task, one lookup and one resolution a round, one delivery a recipient and instance and round, nobody twice in one call |
| DeliveryRun.UnresolvedUnsettled | internal/job/processor.go:183-192 | Whoever is reported unresolved, and so dead-lettered, was settled by none of the calls |
| DeliveryRun.PendingIsUnresolved | internal/job/processor.go:77-85 | The pending list names exactly the unresolved recipients |
| DeliveryRun.PendingDistinct | internal/job/processor.go:77-85 | and each of them once |
| DeliveryRun.RepairedMeans | internal/job/routing.go:20-35 | The task's repair is spent exactly if one of its lookups was made for somebody under repair |
| DeliveryMeaning.LastDirectiveDecides | internal/job/routing.go:195-208 | A route is looked up again after a failure exactly if that was asked for and not taken back by a later directive |
| DeliveryMeaning.FailureMeaning | internal/job/routing.go:195-223 | A failed call settles nobody: it gives its recipients up exactly on the five codes or the two directives, drops their routes exactly if they are to be looked up again, and otherwise only notes the reason |
| DeliveryMeaning.StoppedForAReason | internal/job/routing.go:19-127 | Nobody is given up unless a call for it, or a resolution, failed for good, or a repair was made or wanted that brought no route |
| DeliveryMeaning.NoRetryAfterRejection | internal/job/routing.go:195-217 | Once a call for a user failed for good, no later call of the task asks for that user |
| DeliveryMeaning.DeliveredOnTime | internal/job/routing.go:84-118 | Every delivery goes out after its address answered, to a lease that both clock readings find live, with routes that are the task's hints or were looked up for that user and that both readings find unexpired |
| DeliveryMeaning.NobodyForgotten | internal/job/routing.go:19-127 | In each round whoever can be helped is looked up, and whoever then has a route is resolved and, if the answer, the clock and the dialling allow, delivered to |
| DeliveryMeaning.ReportMeaning | internal/job/processor.go:183-192 | Reported enqueued exactly on code 1 and duplicate exactly on code 2 in a delivery answer that matches task, message and targets one by one; offline exactly by a valid lookup; unresolved exactly with a reason |
| Replay.ReplayTask | internal/job/replay.go:39-89 | The narrowing loops accept exactly letters whose pending users are allowed by both the task and the exact original |
| Replay.UnresolvedIsReplayable | internal/job/replay.go:39-89 | A consumer's letter for unresolved users replays to exactly those users if and only if the wall clock did not step back |
| Replay.ReplayDecodes | internal/job/replay.go:85-88 | The replay decodes to itself, has the same immutable digest, exactly the pending users as scope and no hints |
| Replay.ReplayNarrows | internal/job/replay.go:57-84 | A replay stays within the scope of the original bytes and is the same immutable task, so it never conflicts with it |
| Replay.ChainStep | internal/job/replay.go:61-88 | Each pass of a chain has exactly the users its predecessor left unresolved |
| Replay.ChainsOnlyShrink | internal/job/replay.go:61-88 | Along any consume, dead-letter and replay chain nobody settled in an earlier pass comes back |
| PartitionConsumer.WindowIsLastNewlySeen | internal/job/consumer.go:110-126 | The identity cache is the last newly seen task ids up to its capacity, oldest first, without repetition |
| PartitionConsumer.ConflictNeedsDifference | internal/job/consumer.go:110-126 | Seeing the same task again never counts as a conflict |
| PartitionConsumer.RefusalMeaning | internal/job/consumer.go:110-162 | A record is refused as no task exactly if it does not decode, and as a conflict exactly if one of the last newly seen tasks, as many as the cache holds, has its id and another digest |
| PartitionConsumer.Consumer.constructor | internal/job/consumer.go:76-87 | Options out of range fall back to their defaults, the cache is empty |
| PartitionConsumer.Consumer.Conflict | internal/job/consumer.go:110-126 | Map, order list and wrapping index behave as that window; true exactly if the id is in it with another digest |
| PartitionConsumer.Consumer.Ack | internal/job/consumer.go:245-282 | Only the failed acknowledgement is retried, at most the configured number of times, and blocked is balanced; it gives up only when told to stop or refused that often |
| PartitionConsumer.Consumer.Decide | internal/job/consumer.go:143-221 | A letter is owed exactly for undecodable, conflicting or unresolved records, with the bytes or the users it must carry and the two clock readings of its record |
| PartitionConsumer.Consumer.HandleRecord | internal/job/consumer.go:143-242 | One record is done only after its letter, if owed, and its commit were acknowledged, and is left undone only when told to stop or refused too often; the statistics match the events |
| PartitionConsumer.Consumer.Fetch | internal/job/consumer.go:139-143 | Fetching opens a record only when the earlier one is committed |
| PartitionConsumer.Consumer.RunPartition | internal/job/consumer.go:134-244 | The loop's trace obeys the ledger, offsets are handled in fetch order up to the end unless it is told to stop or an acknowledgement is refused too often, counters and cache match the trace |
| PartitionConsumer.CommitsAreJustified | internal/job/consumer.go:160-242 | Every commit is of the record fetched last, after a clean result or an acknowledged letter that was owed |
| PartitionConsumer.FetchWaitsForCommit | internal/job/consumer.go:130-139 | No later record is fetched before the earlier one is committed |
| PartitionConsumer.CommitLosesNobody | internal/job/consumer.go:201-242 | At each commit of a task, since its own fetch: everyone in scope was settled, or an acknowledged letter, stamped with that fetch's clock readings, names exactly the others for replay, or the record was refused and an acknowledged letter carries the original bytes |
| PartitionConsumer.EngineIsFaithful | internal/job/processor.go:136-193 | Every result of the engine is what CommitLosesNobody asks of its processor |
| Paging.BuildPage | internal/logic/messagestore/sync.go:49-64 | The paging loop, with one extra row and the default limit, gives the page of the model |
| Paging.PageIsRange | internal/logic/messagestore/sync.go:49-64 | A page is exactly the conversation's rows between its two positions, and complete if it says there is no more |
| Paging.PageTellsMore | internal/logic/messagestore/sync.go:49-64 | A page never exceeds its limit, and says that there is more exactly if a further row of the conversation exists |
| Paging.CollectSound | internal/logic/messagestore/sync.go:50-52 | Rows come from the conversation, from the range, in strictly ascending id order |
| Paging.CollectComplete | internal/logic/messagestore/sync.go:50-52 | No row of the conversation in the range is missing |
| Paging.PagesShowEverything | internal/logic/messagestore/sync.go:45-64 | With any limits and a growing table, the pages together are every row up to the cursor exactly once |
| MessageTable.CheckMembers | internal/logic/messagestore/store.go:234-249 | The member loop: one malformed member spoils the group even after the sender was found; otherwise only members may use it |
| MessageTable.RequireUsers | internal/logic/messagestore/store.go:286-302 | Counting in chunks of a hundred accepts exactly lists of existing users |
| MessageTable.DecodeRecipients | internal/logic/messagestore/store.go:265-285 | A stored snapshot is accepted exactly if it is a non-empty strictly ascending list of user ids |
| MessageTable.LocateOk | internal/logic/messagestore/store.go:100-135 | What authority lets through is a sound conversation, and a save's recipients are exactly the group's members or the two users, in order and with the sender among them |
| MessageTable.FindKeeps | internal/logic/messagestore/store.go:137-156 | The look-up for an earlier row keeps the invariant in every interleaving |
| MessageTable.InsertKeeps | internal/logic/messagestore/store.go:161-168 | So does taking an id and inserting |
| MessageTable.CommitKeeps | internal/logic/messagestore/store.go:95-176 | So does committing, heard of or not |
| MessageTable.InvAlways | internal/logic/messagestore/store.go:91-181 | In every interleaving of saves and synchronisations: one row for each sender and client id, rows valid, locks held, answers backed by rows |
| MessageRuns.SavedOnce | internal/logic/messagestore/store.go:91-181 | All successful saves of one sender and client id return the same message and the same recipients, whatever changed in between, and the message is what each request asked for: sender, destination, content and origin |
| MessageRuns.FindDecides | internal/logic/messagestore/store.go:137-156 | A stored pair is replayed exactly if the fingerprints agree and refused as a conflict otherwise, with the table untouched |
| MessageRuns.SettledForever | internal/logic/messagestore/store.go:96-98 | Behind a settled position the conversation's rows never change again |
| MessageRuns.NothingLostBehindPage | internal/logic/messagestore/sync.go:34-66 | Once a page's cursor is handed out, no later-committed row of the conversation lies at or before it |
| MessageRuns.FollowingShowsEverything | internal/logic/messagestore/sync.go:34-66 | A client following cursors from the beginning sees every row once, in order, with any concurrent saves in between |
| MessageRuns.AcknowledgedIsShown | internal/logic/messagestore/sync.go:34-66 | In particular every save acknowledged before its last page was read |
| MessageRuns.CursorSafeIff | internal/logic/messagestore/validation.go:48-65 | A page's cursor can never miss a row if and only if the request's position is at most the last id handed out |
| MessageRuns.PageAlwaysShown | internal/logic/messagestore/sync.go:57-63 | The check on each row of a page never fails a row that a save wrote |
| MessageRuns.SavedIsDeliverable | internal/logic/messagestore/store.go:161-173 | Every acknowledged save gives the push side a message and recipients its decoder accepts |
| MessageAudience.LockHistory | internal/logic/messagestore/store.go:100-135 | Every save past that point took the lock itself, for exactly those authorised then, and has been the same transaction since |
| MessageAudience.SaveAuthorised | internal/logic/messagestore/store.go:91-181 | The first answer to a save names exactly the members, or the two users, authorised when that very transaction took the conversation's lock, whatever changed before it committed |
| MessageAudience.RowAuthorised | internal/logic/messagestore/store.go:91-181 | Every stored row goes to exactly those its own transaction was authorised for when it took the conversation's lock |
| MessageAudience.CheckHistory | internal/logic/messagestore/store.go:286-302 | Every save past the check of users did it itself, when everyone it goes to existed |
| MessageAuthority.UserGate | internal/logic/messagestore/store.go:195-198 | The user's lock is taken exactly for an existing user; others are refused as forbidden |
| MessageAuthority.GroupGate | internal/logic/messagestore/store.go:226-252 | For a save or a synchronisation in a group: let through exactly if the group is open and the user is among sound members; forbidden and database error have their own exact conditions |
| MessageAuthority.SessionGate | internal/logic/messagestore/store.go:206-225 | For a synchronisation of a direct session: let through exactly if the user is one of its two sound ends; each refusal has its condition |
| MessageAuthority.PairGate | internal/logic/messagestore/store.go:206-225 | For a direct save: let through exactly if a sound session joins the two users, forbidden exactly if none joins them |
| MessageAuthority.AccessGate | internal/logic/messagestore/store.go:107-123 | For an AI save: let through exactly if the user is an end of the sound session and has been given access |
| MessageAuthority.RecipientsGate | internal/logic/messagestore/store.go:286-302 | A save goes on exactly if all its recipients exist |
| MessageAuthority.PageAuthorised | internal/logic/messagestore/sync.go:34-66 | Every page ever answered traces back to its own transaction, which took the conversation's lock when the group was open with the user among its sound members, or the user was one of the session's two ends |
| MessageProgress.SaveCompletes | internal/logic/messagestore/store.go:91-181 | From any reachable state a save that is let through and finds its locks free runs to its acknowledgement: it stores one row under the next id, for its own sender, conversation, content and recipients, and leaves all else alone |
| MessageProgress.RetryCompletes | internal/logic/messagestore/store.go:137-156 | and a retry of the same save gets the stored message and recipients again and stores nothing |
| MessageProgress.SyncCompletes | internal/logic/messagestore/sync.go:34-66 | and a synchronisation gets the page of what is stored then and changes nothing |
| SyncCursor.ParseConversationMeaning | internal/logic/messagestore/validation.go:66-80 | A name is accepted exactly if it is the name of a valid conversation |
| SyncCursor.DecodeCursorMeaning | internal/logic/messagestore/validation.go:44-65 | Decoding inverts encoding and accepts nothing else |
| SyncCursor.ForeignCursorRejected | internal/logic/messagestore/validation.go:48-65 | A cursor of another conversation is refused |
| SyncCursor.NextCursorIsPosition | internal/logic/messagestore/sync.go:45-64 | Sending back the cursor of a page asks for exactly the position the page ended at |
| SyncCursor.ReaderExists | internal/logic/messagestore/validation.go:38-47 | What the encoder writes determines what was written, so a reader as assumed exists |
| Dispatch.ChunksPartition | internal/logic/dispatch.go:21-24 | The chunks concatenate to the recipients, each of one to a hundred |
| Dispatch.HintsOf | internal/logic/dispatch.go:25-33 | Hints are exactly the online answers, at most one for each recipient |
| Dispatch.HintsAreLive | internal/logic/dispatch.go:25-33 | On a store the lease script left, the hints of a chunk are exactly its users whose route and authentication are live and whose boot holds the live lease |
| Dispatch.PublishChunk | internal/logic/dispatch.go:23-53 | One chunk's task reaches the publisher with exactly the hints its lookup gave, none if it failed, and has the publisher's answer |
| Dispatch.TaskDecodes | internal/job/task.go:53-98 | Every published task passes Job's decoder and reads back unchanged |
| Dispatch.TasksDecodeIff | internal/logic/dispatch.go:34 | All tasks of a message decode if and only if the number of chunks fits in 32 bits |
| Dispatch.Dispatch | internal/logic/dispatch.go:15-56 | Queued exactly if the publisher acknowledges every chunk, not queued exactly if it certainly got none, unknown otherwise; chunks follow each other until one is not acknowledged |
| Dispatch.TasksReachRecipients | internal/logic/dispatch.go:21-56 | Read by Job, the tasks of a queued message reach every recipient exactly once, in order |
| CometHub.ValidTaskIdMeaning | internal/comet/validation.go:88-99 | The accepted task ids are exactly those of this message's chunks |
| CometHub.CheckDelivery | internal/comet/validation.go:88-117 | The loop accepts exactly one to a hundred distinct targets of this instance |
| CometHub.OutcomeMeaning | internal/comet/hub.go:216-238 | Each outcome says exactly what was the case: drain over, no active connection under the full identity, reached with or without room |
| CometHub.AtMostOnce | internal/comet/hub.go:216-238 | No user gets a message twice in a delivery, even if named under several tuples |
| CometHub.LeftShrinks | internal/comet/hub.go:225-238 | Only a full queue costs a connection its place |
| CometHub.Connection.Offer | internal/comet/hub.go:227-230 | A message is appended exactly if there is room, never beyond capacity, in order; what the writer took by then is gone from the front |
| CometHub.Connection.Close | internal/comet/hub.go:48-49 | The channel is closed at most once: closing requires that it is open |
| CometHub.Hub.constructor | internal/comet/hub.go:80-90 | A hub starts empty, not draining, with a positive queue size |
| CometHub.Hub.Install | internal/comet/hub.go:177-186 | A new connection replaces the user's present one, which is closed |
| CometHub.Hub.Register | internal/comet/hub.go:165-188 | Refused as invalid or while draining; the same identity returns the same connection, another one replaces it, and nothing else changes |
| CometHub.Hub.Unregister | internal/comet/hub.go:190-207 | Removes the very connection named and says exactly why not otherwise; nothing else changes |
| CometHub.Hub.Deliver | internal/comet/hub.go:205-242 | Refused exactly if invalid. Otherwise results match targets in order, each by the clock at its own moment: drain over exactly if draining with the deadline reached; the message is added to exactly the queues of enqueued targets; connections leave exactly by full queues |
| CometHub.Hub.Drain | internal/comet/hub.go:244-268 | Accepted exactly for a deadline ahead within thirty seconds; while draining it only comes closer; the state reported is the new one |
| CometHub.Hub.Activate | internal/comet/hub.go:272-284 | Only the present connection and never while draining, and nobody else |
| CometHub.Hub.Perform | internal/comet/hub.go:132-284 | Each operation has its own result and effect on the hub as a whole, and no other |
| CometHub.Hub.Serve | internal/comet/hub.go:93-121 | A command whose caller gave up changes nothing, another one is performed; the timer and the end close everybody |
| CometHub.Hub.CloseAll | internal/comet/hub.go:123-128 | Every connection present is closed, each once |
| CometHub.Hub.TimerFires | internal/comet/hub.go:106-108 | Afterwards the hub is empty, and stays so |
| CometHub.Hub.Run | internal/comet/hub.go:93-121 | Over any events: each is taken where the one before left the hub, with its own effect; a connection is closed exactly when it has left the map, keys are users, nothing joins or is activated after a drain began, all are closed at the end |
| ChatMerge.ChatState.Select | web/chat-server/src/chat-state.js:64-68 | A chat is created once, empty |
| ChatMerge.ChatState.BeginSync | web/chat-server/src/chat-state.js:80-84 | Marks the chat and returns its cursor |
| ChatMerge.ChatState.MergePage | web/chat-server/src/chat-state.js:86-97 | A page is merged entirely or not at all |
| ChatMerge.CursorMovesWithPage | web/chat-server/src/chat-state.js:92-96 | The cursor moves only with an accepted page whose every message is then saved |
| ChatMerge.ChatState.FinishSync | web/chat-server/src/chat-state.js:99-105 | The buffer is merged and emptied |
| ChatMerge.ChatState.Receive | web/chat-server/src/chat-state.js:107-120 | A valid live message is buffered or merged and never dropped, also at the flush threshold |
| ChatMerge.ChatState.CreatePending | web/chat-server/src/chat-state.js:122-132 | Only under an unused client id and within the limit |
| ChatMerge.ChatState.Retry | web/chat-server/src/chat-state.js:142-148 | Only a retryable item that is not under way |
| ChatMerge.ChatState.Result | web/chat-server/src/chat-state.js:155-174 | An error leaves the item open; a receipt for the very message sent saves it with its dispatch state and removes the item |
| ChatMerge.LiveExplained | web/chat-server/src/chat-state.js:107-120 | After a live message the chat holds exactly what it accepted, each with its last receipt |
| ChatMerge.PageExplained | web/chat-server/src/chat-state.js:86-97 | So after a page |
| ChatMerge.Convergence | web/chat-server/src/chat-state.js:52-120 | Chats that accepted the same messages and receipts, in any order and with any flushes, save the same |
| ChatMerge.Snapshot | web/chat-server/src/chat-state.js:70-78 | Every saved message once, no message id twice, by position and then id |
| ChatMerge.SameView | web/chat-server/src/chat-state.js:70-78 | and so show the same sequence |
| Agreement.LookupBelieved | internal/job/routing.go:227-250 | Job's validator accepts every lookup the lease script answers, as long as the routes are good by Job's own clock |
| Agreement.ResolveBelieved | internal/job/routing.go:251-274 | and every resolution, as long as the leases are |
| Agreement.DeliveryBelieved | internal/job/routing.go:283-293 | Job's validator accepts every answer of a hub, and takes exactly the enqueued targets as settled |
| Agreement.EngineIsAdmitted | internal/comet/validation.go:88-117 | No delivery the engine makes for a decoded task fails the hub's validation at the instance it goes to |
| Agreement.DirectStaysPrivate | internal/job/task.go:64-96 | Whatever hints, routes and pending lists there are, a direct message is sent to none but its two users |
| Agreement.ViewShown | web/chat-server/src/chat-state.js:22-31 | The browser accepts every message the store can show |
| Agreement.PageAdmitted | web/chat-server/src/chat-state.js:86-97 | The browser accepts every page of presentable rows read for its chat and cursor, so its cursor never gets stuck |
| Agreement.ReachablePageAdmitted | web/chat-server/src/chat-state.js:86-97 | In particular every page of a reachable table |

## Left out

- gRPC, Kafka, Redis, MySQL and WebSocket clients, connection pools, process start and stop, configuration, metrics, logs: I/O around the modelled decisions.
- Bearer tokens, JWTs and role checks: one-branch or library checks.
- UTF-8 validity and the 4000-character limit of AI text: `ValidText` checks bytes and length only.
- TrimSpace in SaveAI: its requests are modelled after trimming.
- The host and port syntax of addresses: an address is a non-empty text.
- JSON tokenising: strict reading, duplicate and unknown keys are part of the codec; only the escape scan is modelled.
- MySQL gap locks, deadlock detection, unique indexes on the pair of sender and client id, and collation: exactly-once is proved from the row locks alone.
- Reading the clock inside one validator: `ValidLookups` and `ValidResolutions` use one reading for all entries of a reply.
- PartitionConsumer.Consumer.RunPartition: covers every finite prefix of the endless loop.
- PartitionConsumer.CommitLosesNobody: takes results of a faithful processor for the record's own scope, as DeliveryRun.Process provides (PartitionConsumer.EngineIsFaithful).
- The delays between rounds and between acknowledgement attempts: time may pass anywhere.
- CometHub.Hub.Perform: a caller that stops waiting after its command was accepted is not told the effect; only the effect on the hub is modelled.
- The queue of control frames and the writer's own failures: a writer only takes messages here.
- ChatMerge.ChatState: pending items of all chats are one map, since a client id is pending in one chat only; their display order is not modelled.
- ChatMerge.Before: compares ids byte by byte where the browser uses its locale; the theorems need a total order on distinct ids only.
- Parsing of socket frames and time text in the browser: frames are values with the fields the checks read.
- The legacy server, contacts, groups and AI settings, MCP tools, HTTP controllers and the user interface: easier code with no part in these guarantees.
- How an operator collects letters by offset range for replay, and the check that Job's process is still the current one: both decide only when a replay or a consumer runs, and the results on replay and on commits hold whenever they do.
