# A verified model of the event dispatcher and the cache core

Two parts of the repository are protocols over a store that several processes share: the
change-feed dispatcher of `events/` and the read-through and indexing core of `cache/core/`. This
project models both in Dafny and proves what they promise, or the exact condition under which they
keep the promise.

Where the source is a protocol, the model is a state machine: a datatype for the state, one step
for each store call or critical section, and lemmas about every state of every run. Where the
source is a loop over maps and slices, the model is a method with that loop, on a class that holds
the fields the source updates; each store call it makes is a step of the machine, with `Others`
standing for anything other servers may do in between, so what is proved of runs holds of the
methods. Values computed by expressions are functions. `alone`, `fixed` and `reliable` say that
nobody else acts, that nothing expires, and that no store call fails; a clause without them holds
whatever the others do.

Verify it with `dafny verify dfyconfig.toml --resource-limit 2000000`.

## The files

| file | what it models |
|---|---|
| `ChangeFeed.dfy`, `ChangeFeedProofs.dfy`, `ChangeFeedLimits.dfy`, `ChangeFeedOwed.dfy` | feeds, webhooks, the etag-guarded cursor and any number of servers with their private memory; that no change is lost; that the delays tolerated are exactly these; that nobody is sent what they did not ask for |
| `Dispatcher.dfy` | `dispatch` and what it calls, as loops over that machine |
| `Deliveries.dfy`, `DeliveryProofs.dfy`, `Sender.dfy` | claims, attempts, outcomes and retries |
| `Names.dfy`, `Text.dfy` | the derived names of events and deliveries |
| `Flights.dfy`, `Locks.dfy`, `Refreshes.dfy` | the single-flight and its budget, the fenced lock across processes, background refreshes and shutdown |
| `Envelopes.dfy`, `Aside.dfy` | the stored frame and read-through |
| `Gathering.dfy`, `Drivers.dfy`, `Documents.dfy` | bounded fan-out, batched reads, the lazy sweep and the document strategy over a failing, expiring store |
| `Filings.dfy`, `Indexed.dfy` | the two-way index bookkeeping and the indexed strategy |
| `Keyspaces.dfy`, `Globs.dfy`, `Drops.dfy` | the key names, the glob of the servers that hold them, and dropping one database |
| `Wrappers.dfy`, `Leases.dfy` | what the others share: an option, and the check of a stated lease |

## What the code does that its text does not say

- The dispatcher's options speak of writes that commit within Lag and webhooks that commit within
  HookSettle. Exactly: a write may take up to, but not including, Lag + HookSettle, and a webhook up
  to, but not including, HookSettle. At either limit a change can be lost
  (`ChangeFeedLimits.LateWriteLoses`, `ChangeFeedLimits.LateWebhookLoses`).
- Eight attempts take 3810 seconds at least, 63.5 minutes, where `events/dispatcher.go:48-49` speaks
  of a day and a half (`DeliveryProofs.DefaultTakes`).
- `cache/core/loader.go:91-94` counts a remembered absence as published in its comment and not in
  its code; `ReadThrough.Cache.Claim` follows the code.
- An entry's hard expiry counts from its storing and its freshness from its framing. A value is
  served only within TTL, and the stale window, of its framing if and only if it was stored in the
  instant it was framed (`ReadThrough.ServedFreshExactly`); `ReadThrough.ServedLate` is one that is not.
  Where storing takes no longer than some time, that is how much older it may get
  (`ReadThrough.NeverOlderExactly`).
- The lock keeps two winners out of the loader for as long as loaders keep their context. One that
  outlives it by anything at all can meet the next (`Locks.BuiltNeverTwoLoading`).
- `Drop` reports how many keys its walk returned. That is how many went exactly when the walk
  repeated none (`Drops.Server.Drop`).
- A database name may hold what is special to a glob, and dropping finds exactly the keys of that
  database if and only if it does not: any other name misses keys of its own or finds another's
  (`Drops.DropsExactly`). Dropping `a[b]` empties `ab` (`Drops.BracketFindsOther`).
- A database selected by number where numbers are in the keys, and one named `db` and that number,
  are one keyspace (`Keyspaces.SameSegment`). A prefix that ends in a name, with a database selected
  by number, and the rest of it with that name are one, too (`Keyspaces.SameHead`).
- An index key is a field and value joined by a colon, so a lookup answers what was filed under
  another pair that joins to the same key. There is such a pair exactly when there is a colon in the
  field or the value (`Filings.LookupMeetsOthers`, `IndexedEntries.CreatedIsAnswered`).
- A filing whose field holds an equals sign is read back as another, so it is left behind when its
  id is unfiled or refiled, and a lookup goes on answering it (`Filings.LeftoverExactly`,
  `Filings.RefiledExactly`, `IndexedEntries.RefiledIsAnswered`).
- A refile that cannot forget a dropped pair goes on, and says nothing
  (`cache/core/filing.go:58-60`). The pair stays in the record, and later removals read it again.
- A delete that stops once it has unfiled leaves a live entry that no index names; a create never
  does, wherever it stops (`IndexedEntries.Indexed.Delete`, `IndexedEntries.Indexed.Create`).

## Model

| member | source | states |
|---|---|---|
| ChangeFeedProofs.NoChangeLost | events/dispatcher.go:164-293 | in every run of any number of servers, with late commits, cursor conflicts, failed rounds, crashes and restarts, a completed read of a feed has left every still-current version between Lag before the first position and the round's bound with a delivery for every never-edited, never-paused webhook that asks for its kind or every kind, for its scope or every scope, and was there when it happened |
| ChangeFeedProofs.NothingFallsBehind | events/dispatcher.go:223-279 | in every reachable state, whatever lies more than Lag before the cursor, or at or before a position any server has settled, has every delivery it is owed: no read needs to reach it again |
| ChangeFeedProofs.CompleteHandles | events/dispatcher.go:243-279 | when a server's read is complete, every version in scope at or below its bound that was current as it began is handled, whether it was read now, skipped as seen, or below the window |
| ChangeFeedProofs.StepInv | events/dispatcher.go:216-402 | every step of every server, of the store and of its surroundings keeps what the seen-set, the settled positions and the cursor stand for |
| ChangeFeedOwed.OnlyOwedIsCreated | events/dispatcher.go:164-174 | in every run, whatever the delays, every delivery ever created is of a version that was committed, of a kind, to a webhook that was listed unpaused, asked for that kind or every kind and for its scope or every scope, and was there when it happened |
| ChangeFeedLimits.NeverLosesExactly | events/dispatcher.go:51-58 | no run ever loses a change if and only if writes commit sooner than Lag + HookSettle and webhooks sooner than HookSettle |
| ChangeFeedLimits.LateWriteLoses | events/dispatcher.go:224-231 | a write that takes Lag + HookSettle to commit can be skipped by the settled cursor |
| ChangeFeedLimits.LateWebhookLoses | events/dispatcher.go:179-183 | a webhook that takes HookSettle to commit can miss a change it wants |
| Dispatch.Dispatcher.DispatchFeed | events/dispatcher.go:216-279 | it fails only when a store call does; otherwise, at a point within the call, its read has lost nothing whatever others did meanwhile, and a server alone has created exactly the deliveries of one that keeps no memory and rereads from the first position |
| Dispatch.Dispatcher.RunDispatch | events/dispatcher.go:178-205 | it fails only when a store call does; otherwise it has for each feed, one after the other within the round, a completed read that lost nothing, under one bound no older than the round's start less HookSettle |
| Dispatch.Dispatcher.ReadFeed | events/dispatcher.go:224-265 | the read alone: the window, the seen-set and the settled cursor change nothing about what ends up recorded |
| Dispatch.Dispatcher.ReadPages | events/dispatcher.go:232-265 | page by page, everything in the window is covered and, alone, nothing is recorded that is not owed |
| Dispatch.Dispatcher.ReadOnePage | events/dispatcher.go:233-261 | one page is read, sifted and recorded, and less of the window is left, none when it is the last |
| Dispatch.Dispatcher.Sift | events/dispatcher.go:242-258 | the latest time on the page, the unseen changes some webhook wants, each once, and the rest remembered as recorded for nobody |
| Dispatch.SiftOne | events/dispatcher.go:243-258 | one change moves the latest time, the list to send and the memory in step, whichever branch it takes |
| Dispatch.Dispatcher.IsWanted | events/dispatcher.go:207-214 | true exactly when some webhook on the list asks for the change's kind or every kind, for its scope or every scope, and was there when it happened |
| Dispatch.Dispatcher.RecordAll | events/dispatcher.go:300-324 | a page's changes are fetched and recorded, and the read goes on with none of them left over, or the round gives up; alone, nothing is created that is not owed |
| Dispatch.Dispatcher.RecordFetched | events/dispatcher.go:313-323 | exactly the changes whose record has not moved on are recorded for all who want them, and remembered |
| Dispatch.Dispatcher.Record | events/dispatcher.go:327-360 | afterwards there is a delivery for every webhook that wants the change, new ones for no one else, and the change is remembered only then |
| Dispatch.SameEtag | events/dispatcher.go:313-318 | a fetched record with the etag that was read is the very version that was read |
| Dispatch.Dispatcher.OpenFeed | events/dispatcher.go:283-293 | a cursor the store has held since the call, and with no other server about the feed's own, or one begun at now when there was none |
| Dispatch.Dispatcher.Conclude | events/dispatcher.go:266-279 | what no reread reaches is forgotten, a position is settled exactly when the cursor stays and the bound is at least Lag past it, and the cursor moves to the latest time read exactly when that is later and nobody had moved it by then |
| Dispatch.Dispatcher.Forget | events/dispatcher.go:394-402 | exactly the changes at or after the cutoff stay remembered |
| Dispatch.OwedIsCreated | events/dispatcher.go:250-271 | a server alone whose read is complete has recorded everything a reread from the first position would |
| Dispatch.CreatedGrows | events/dispatcher.go:344-356 | a delivery once created stays recorded, however often it is recorded again |
| DeliveryProofs.Lifecycle | events/dispatcher.go:454-494 | in every reachable state a delivery's count is of the attempts whose outcome was written to the store since it was created, PENDING means fewer than the limit, the next attempt's time is unset exactly in SUCCEEDED and FAILED, and FAILED means the attempts are used up or the webhook was deleted |
| DeliveryProofs.TerminalIsFinal | events/dispatcher.go:475-492 | nothing of a SUCCEEDED or FAILED delivery ever changes while it is kept |
| DeliveryProofs.OneClaim | events/dispatcher.go:459-466 | at most one attempt holds a claim on what the store holds of a delivery |
| DeliveryProofs.OutcomeReplacesItsClaim | events/dispatcher.go:459-493 | however slow its sender, an outcome replaces exactly what that sender's own claim wrote |
| DeliveryProofs.NeverOverlapsExactly | events/dispatcher.go:26-28 | no two POSTs of one delivery ever overlap if and only if every attempt ends sooner than claimFor after its clock read |
| DeliveryProofs.SlowAttemptOverlaps | events/dispatcher.go:454-471 | an attempt as long as a claim can be met by a second POST |
| DeliveryProofs.Undisturbed | events/dispatcher.go:405-494 | an attempt nobody disturbs can take each of its steps; it posts exactly when the webhook is there, and leaves the delivery with one attempt more, succeeded exactly when the post was taken, failed exactly when the webhook is gone or the count used up, and otherwise due again after the backoff |
| DeliveryProofs.ExhaustionTakesItsTime | events/dispatcher.go:484-491 | a delivery that fails while its webhook was never deleted has had every attempt, and fails no sooner after its first claim than the waits between them |
| DeliveryProofs.DefaultTakes | events/dispatcher.go:48-50 | with 8 attempts those waits are 3810 seconds |
| DeliveryProofs.BackoffGrows | events/dispatcher.go:496-504 | the wait never shrinks, and stays within 30 seconds and 6 hours |
| DeliveryProofs.Backoff | events/dispatcher.go:498-504 | the loop computes 30 seconds doubled n-1 times, capped at 6 hours, and works only with the doublings on the way, each below 12 hours |
| Sending.Attempt | events/dispatcher.go:454-494 | a paused webhook's delivery is left as it is, neither claimed nor posted; otherwise it writes unless a store call fails or another sender was first, and alone nothing else is touched. What it writes replaces its own claim of at least claimFor and counts one more: it succeeds exactly when the receiver takes it and the webhook is there, fails exactly with the webhook gone or the attempts used up untaken, and otherwise is next due no sooner than the backoff |
| Sending.ClaimAndPost | events/dispatcher.go:459-471 | a claim that conflicts or fails is never held and posts nothing, and alone it leaves every delivery as it was and conflicts only when that one had changed; one that wins holds the delivery, due again after claimFor, and posts unless the webhook is gone, with the receiver's answer for its own |
| Sending.WriteOutcome | events/dispatcher.go:472-493 | the outcome written is succeeded exactly on an accepted post, failed exactly when the webhook is gone or the count used up, and lost only to a failure or a changed delivery |
| Sending.Decide | events/dispatcher.go:472-491 | succeeded exactly on an accepted post, failed exactly when the webhook is gone or the count is used up, otherwise pending after the backoff |
| Names.SameDelivery | events/cloudevents.go:17-44 | two recordings share a delivery's name exactly when webhook, record and etag are all the same: at most one delivery for each, however many servers record it |
| Names.WebhookOfDelivery | events/store.go:153-160 | WebhookOf undoes DeliveryName exactly for webhooks whose name neither contains the separator nor ends in all of it but the last slash; a delivery's name is its webhook's, /deliveries/d, and 31 digits |
| Names.Index | events/store.go:156-157 | the first place the separator occurs, or none anywhere |
| Flights.OneExecutionPerKey | cache/core/flight.go:60-107 | in every reachable state at most one execution of a key is under way, and it is the call the map holds |
| Flights.SlotsAreAccounted | cache/core/flight.go:64-107 | the slots taken are the calls in the map plus the executions on their way out, never more than the budget, and none when no execution is left |
| Flights.JoinedIsUnpublished | cache/core/flight.go:61-76 | a caller joins a call nobody has published, or starts one; a refused start changes nothing |
| Flights.ResultIsKept | cache/core/flight.go:106-106 | the result of a call is never changed |
| Flights.WokenGetsItsCall | cache/core/flight.go:78-80 | who returns through done gets what the function of the very call it waited on returned |
| Flights.WaiterKeepsItsCall | cache/core/flight.go:61-80 | a waiter waits on one call for as long as it waits |
| Flights.NoWaiterIsStranded | cache/core/flight.go:78-106 | every waiter can return, or its call has a next step that brings it nearer |
| Flights.NoStepTakesBack | cache/core/flight.go:60-107 | no step by anyone, least of all a caller giving up, takes a call further from being published |
| Flights.Flight.Do | cache/core/flight.go:60-83 | the result is of the call found in the map or begun here; refusal happens exactly for a new call at a full budget, and leaves everything as it was; a caller gives up only with its patience used up and its call still unpublished |
| Flights.Flight.Conclude | cache/core/flight.go:87-107 | the deferred calls take the key out of the map, publish the result and give the slot back |
| Locks.OnlyItsHolderRemoves | cache/core/loader.go:99-110 | short of running out, a live lock goes exactly as the process that took it unlocks |
| Locks.OneLiveHolder | cache/core/loader.go:79-96 | of the winners that have not unlocked, at most one has a lease still running |
| Locks.NeverTwoLoadingExactly | cache/core/loader.go:86-110 | no two winners are ever in the loader for one id at once if and only if a flight's timeout, and what a loader may overrun it by, come to no more than the lease |
| Locks.ShortLeaseLetsTwoIn | cache/core/loader.go:86-96 | a loader that outlives its lease can meet the next winner |
| Locks.BuiltNeverTwoLoading | cache/core/build.go:13-21 | with the two constants as built, 30 seconds each, that is ruled out if and only if no loader outlives its context |
| Locks.ClaimedAndGivenBack | cache/core/loader.go:79-110 | a claim of a free lock, given back, leaves it free; one that finds it taken changes nothing, whether its process joins or loads |
| Locks.UnlockInv | cache/resp/bulk.go:86-103 | compare-and-delete keeps every other holder's lease, live or late |
| Refreshes.ClaimedWhileOwned | cache/core/aside.go:140-153 | an id is in refreshing exactly while one reader or one admitted refresh owns it |
| Refreshes.OneBodyPerKey | cache/core/aside.go:144-149 | at most one refresh of an id of a view runs at a time |
| Refreshes.NothingLeaks | cache/core/refresh.go:40-64 | admitted work keeps to the budget, and with no reader and no refresh left no claim and no slot is |
| Refreshes.NobodyIsStuck | cache/core/refresh.go:40-64 | whoever is there, a reader or an admitted refresh, can take its next step and is nearer to being gone |
| Refreshes.DrainedIsQuiet | cache/core/refresh.go:66-88 | once Drain has returned nil nothing runs and nothing ever will |
| Refreshes.Refresher.Background | cache/core/aside.go:140-153 | an id already claimed is left alone, an admitted refresh holds the claim, and one refused, which takes a full budget or a closed refresher at some moment of the call, gives it back |
| Refreshes.Refresher.Drain | cache/core/refresh.go:71-88 | nil only with no work left and admission closed; otherwise the whole limit was waited and work is left |
| Envelopes.UnpackUndoesPack | cache/core/envelope.go:43-89 | unpack gives back the value that was packed, and never takes an absence for a value or a value for an absence |
| Envelopes.StaleExactly | cache/core/envelope.go:48-88 | a frame is stale exactly when the clock's millisecond is past the deadline's: never before the deadline, always a millisecond after it |
| ReadThrough.ServedExactly | cache/core/loader.go:112-126 | a value with a lease is live exactly until TTL, plus Stale if asked for, past its storing, and without one for ever; it is flagged only with a stale window and past TTL from its framing, and always a millisecond after that |
| ReadThrough.ServedFreshExactly | cache/core/loader.go:52-59 | a value is served only within TTL, and the stale window, of its framing if and only if it was stored as it was framed |
| ReadThrough.ServedLate | cache/core/loader.go:52-59 | framed at 0 with a minute's TTL and stored a second later, a value is served at a minute old |
| ReadThrough.NeverOlderExactly | cache/core/loader.go:52-59 | everything a store may hold is served only within TTL, the stale window and some allowance of its framing if and only if storing takes no longer than the allowance |
| ReadThrough.Cache.GetOrLoad | cache/core/aside.go:65-96 | it reads the store at one moment of the call: what is live then is answered, an absence as one, within TTL, the stale window and the time a store takes of its framing, and without a load, and a refresh is asked for exactly when it is past its fresh deadline. A miss is refused exactly when the flight has no room, or no lease is stated where one must be; otherwise it answers what its own load came to, failing only if the loader or the store did, or a value published since. The loader is called at most once, after a try for the lock if there is one, and no lock is kept |
| ReadThrough.Cache.LoadAndStore | cache/core/loader.go:20-63 | refused, before the lock and the loader, exactly when a lease must be stated and none is; otherwise the loader is called once and its answer given, having been stored, or it is not called and the answer was live in the store at a moment of the call, as it is when the lock is another's and a value is there; a lock it won it gives back |
| ReadThrough.Cache.LoadNow | cache/core/loader.go:37-62 | the one call of the loader: what it found is stored and answered, an absence remembered for 30 seconds |
| ReadThrough.Cache.Claim | cache/core/loader.go:73-97 | never waits: a free lock is won under a fresh token and another's is left alone; a process that lost joins a value live in the store at a moment of the call, or found none there |
| ReadThrough.Cache.Grab | cache/core/loader.go:81-87 | a lock nobody holds is taken under a token never drawn before, for its lease, and won when that is heard; a live one is left alone |
| Gathering.Gather | cache/core/batch.go:25-74 | in any order of completion, with never more than limit calls running: all answers in their order when none fails, otherwise the error of the first call of the run to come back with one |
| Gathering.StepInv | cache/core/batch.go:42-65 | no launch or return leads to more than limit calls running or an answer in another's place |
| Gathering.ShowsMore | cache/core/batch.go:56-62 | whatever the next step, the run still stays within the limit and names the first failure there was |
| Drivers.ExistsAll | cache/core/batch.go:78-91 | for every list, batch split and fan-out, the same answers key by key, in order |
| Drivers.GetAll | cache/core/batch.go:97-118 | the same for values, a miss being a gap |
| Drivers.LiveMembers | cache/core/batch.go:130-192 | every id whose entry is there all along, once, over a walk that may repeat; only ids whose entries are not there are swept, and where no call fails all those whose entries were gone as it began |
| Drivers.Sift | cache/core/batch.go:145-170 | one batch of the walk keeps what is live, once, and sweeps the rest: all of it, where no call fails |
| Documents.Document.Create | cache/core/document.go:37-59 | refused exactly when a lease must be stated and none is; otherwise listed, then stored, and done unless a call fails; wherever it stops, every live entry is listed, and no other entry is touched |
| Documents.Document.Update | cache/core/document.go:71-88 | refused exactly when a lease must be stated and none is; otherwise replaces what is there, makes nothing that is not, and touches no other entry |
| Documents.Document.Delete | cache/core/document.go:91-101 | wherever it stops, every live entry is listed; in the end the entry and its member are gone |
| Documents.Document.Keys | cache/core/document.go:109-118 | each live id exactly once, and the ids whose entries are gone swept from the index |
| Documents.Document.List | cache/core/document.go:121-154 | the live values in the order of Keys, less what expired meanwhile, and the index swept as Keys does |
| Documents.AllPresent | cache/core/document.go:142-151 | with nothing expired, one value for each id, in order |
| Filings.UnpairUndoes | cache/core/indexed.go:22-24 | a pair is read back as it was filed exactly when its field holds no equals sign |
| Filings.PairsApart | cache/core/filing.go:38-51 | two readable fields' pairs are the same only if field and value are |
| Filings.RenderedIs | cache/core/keyspace.go:102-121 | the keys the bookkeeping uses are those of the keyspace |
| Filings.RenderedApart | cache/core/keyspace.go:102-121 | two of them are written the same exactly when they are the same |
| Filings.LookupMeetsOthers | cache/core/keyspace.go:113-116 | a field and value share their index key with something filed under another pair exactly when there is a colon in either |
| Filings.NamedExactly | cache/core/keyspace.go:113-116 | with no colon in any field, an index key names just what was filed under that field and value |
| Filings.LeftoverExactly | cache/core/filing.go:64-76 | of filings with no colon in a field, unfiling leaves behind exactly those with an equals sign in theirs |
| Filings.ReadableIsUnfiled | cache/core/filing.go:64-76 | with no equals sign in any field, whatever else they hold, unfiling leaves nothing |
| Filings.RefiledExactly | cache/core/filing.go:37-62 | with no colon in what was filed, a refile leaves an id filed under exactly what is wanted if and only if every filing not wanted any more has no equals sign in its field and is not kept for a wanted one that makes the same pair |
| Filings.ReadableIsRefiled | cache/core/filing.go:37-62 | with no equals sign in any field that is always so |
| Filings.EqualsSignSticks | cache/core/filing.go:46-57 | filed under field a=b and refiled under d, an id stays where a=b had it |
| Filings.ForgottenExactly | cache/core/filing.go:64-76 | an unfiled id is out of the main index and has no record, and is in no other index exactly when none of its fields held an equals sign |
| Filings.OneByOneIsGrouped | cache/core/indexed.go:104-150 | deleting ids one at a time, in any order, ends in the very state that deleting them in one group does |
| Filings.UnfiledIsOne | cache/core/indexed.go:138-148 | there is only one state in which exactly those ids are unfiled and everything else is untouched |
| IndexedEntries.Indexed.Create | cache/core/indexed.go:24-52 | a new id is filed at exactly the keys of the fields and values it was given, whatever they hold, with its entry stored unless a lease must be stated and none is, and no other id's filings change; wherever a failure stops it, no live entry is left that is not listed and filed so |
| IndexedEntries.Indexed.Update | cache/core/indexed.go:59-68 | refused exactly when a lease must be stated and none is; otherwise an update that names an index refiles the id, leaving it exactly where the wanted fields say when no field holds an equals sign; one that names none leaves its filings; one a failure stops leaves every other id as it was |
| IndexedEntries.Indexed.Reindex | cache/core/indexed.go:64-67 | the refiling alone: out of where its record reads and into what is wanted, or stopped part way, and then only that id's filings are unknown |
| IndexedEntries.Indexed.Delete | cache/core/indexed.go:71-78 | the id is unfiled wherever its record reads and its entry gone, and nothing else is touched; one a failure stops after the unfiling leaves the entry filed nowhere its record read |
| IndexedEntries.Indexed.IDsByIndex | cache/core/indexed.go:93-102 | exactly the live ids filed at the key of field and value and not taken out, each once, if no refiling or unfiling of theirs ever stopped part way |
| IndexedEntries.LookedUpByName | cache/core/indexed.go:89-102 | where no field holds a colon and the id is filed as last asked, those are the ids whose latest filing named field=value |
| IndexedEntries.CreatedIsAnswered | cache/core/indexed.go:93-102 | where nothing fails or expires a lookup answers a new entry exactly when one of its filings joins to the key looked up |
| IndexedEntries.RefiledIsAnswered | cache/core/indexed.go:59-102 | and a refiled one exactly when a filing it has, or one the refile left behind, does |
| IndexedEntries.Indexed.DeleteByIndex | cache/core/indexed.go:114-150 | the ids a lookup answers are unfiled as one-by-one deletion would, their entries are gone, every other id's filings are as they were, nothing live is left at the key, and the count is theirs |
| IndexedEntries.Indexed.GroupRemovals | cache/core/indexed.go:127-136 | an index key is to lose exactly the ids whose records name it |
| IndexedEntries.GroupIsUnfiled | cache/core/indexed.go:138-148 | the grouped removals and the one delete come to unfiling those ids |
| IndexedEntries.DoomedIsRead | cache/core/indexed.go:129-134 | the grouping names an id under a key exactly when its field record reads as it |
| IndexedEntries.GroupDeleted | cache/core/indexed.go:114-150 | a group deletion keeps the bookkeeping and leaves no live entry filed at the key |
| IndexedEntries.Indexed.File | cache/core/filing.go:18-33 | the id is added to each index named and nowhere else, and every pair recorded; stopped part way, to some of them |
| IndexedEntries.Indexed.Refile | cache/core/filing.go:37-62 | the id is out of the keys its dropped pairs read as, in those it is wanted under, and its record holds the pairs of exactly those, but for what it failed to forget |
| IndexedEntries.Indexed.TakeOut | cache/core/filing.go:42-60 | the removals alone: the id is out of wherever a pair not kept reads, and of no other index |
| IndexedEntries.Indexed.Unfile | cache/core/filing.go:64-76 | the id is out of every index its record names, and the record is gone; stopped part way, it is in no index it was not in |
| IndexedEntries.SweptKept | cache/core/batch.go:145-170 | a sweep of one index keeps the bookkeeping and every live id's filings |
| IndexedEntries.OneCreated | cache/core/indexed.go:24-52 | wherever a create stops, what is kept between operations is kept |
| IndexedEntries.OneDeleted | cache/core/indexed.go:71-78 | wherever a delete stops once it has unfiled, what is kept between operations is kept |
| Keyspaces.SameKey | cache/core/keyspace.go:41-132 | under one prefix two keys are the same exactly when their databases share a segment and strategy, kind, id, and field and value are the same |
| Keyspaces.AsDocumented | cache/core/keyspace.go:18-28 | every kind of key is written, below its database's head, as the table of the layout has it |
| Keyspaces.HeadsAsWritten | cache/core/keyspace_test.go:35-39 | the five heads written out there, by name, by number and with neither |
| Keyspaces.SameSegment | cache/core/keyspace.go:41-53 | databases share a segment exactly when they are one, both are numbers the connection selects, or one is an embedded number and the other a name that spells it |
| Keyspaces.ByIsAmbiguous | cache/core/keyspace.go:113-116 | an index key belongs to another field and value as well exactly when there is a colon in either |
| Keyspaces.HeadOwns | cache/core/keyspace.go:93-95 | a key begins with a named database's head exactly when it is that database's |
| Keyspaces.SameHead | cache/core/keyspace.go:41-76 | under any two prefixes two databases have one head exactly when prefix and segment are the same, or one has no segment and its prefix is the other's with its segment: two names never meet |
| Drops.DropFinds | cache/core/drop.go:29-29 | the pattern a drop walks with matches that database's keys and no other database's |
| Drops.DropsExactly | cache/core/drop.go:23-44 | among all names accepted, dropping one finds exactly that database's keys if and only if no character of it is special to a glob |
| Drops.AnotherName | cache/core/drop.go:29-29 | a name with a special character that matches anything of its length or longer matches something else as well |
| Drops.BracketFindsOther | cache/core/drop.go:29-29 | dropping "a[b]" finds every key of "ab" and none of its own |
| Drops.DropsOthersExactly | cache/core/keyspace.go:55-76 | a plain name finds no other database's key, and one with nothing else special finds one exactly when it holds a wildcard |
| Globs.HeadMatches | cache/core/drop.go:29-29 | without a special character in it, a head and a star match exactly what begins with the head |
| Globs.PlainHead | cache/core/drop.go:29-29 | what is plain at the head of a pattern stands for itself |
| Drops.Server.Drop | cache/core/drop.go:23-44 | what matches goes and nothing else; the walk is of exactly what matched, and the count of it exact when it repeats nothing; a failure leaves gone what the count says, in whole batches |
| Drops.Server.DropDatabase | cache/resp/cache.go:126-141 | a name that is empty or holds a colon drops nothing; any other drops exactly what its pattern matches, which for a prefix and name with no special character is that database's keys and no other's |
| Drops.HowMany | cache/core/drop.go:33-43 | a walk names as many keys as it is long exactly when it repeats none |

## Left out

- HTTP posting, signing, sealing and endpoint checks: whether a post is taken is given to `Sending.Attempt`, either way.
- The random source of lock tokens: it does not fail, and no token is drawn twice.
- SHA-256: a parameter giving 32 hex digits; `Names.SameDelivery` says of which strings it must not collide, and names are free of NUL.
- Pruning, in what concerns at most one delivery: `created` is every delivery ever created. In the life of a delivery a prune removes finished ones only.
- Webhook edits and pauses: they may happen in any run, but only webhooks never edited and never paused are owed anything.
- The order of a feed's pages: a read covers what was current when it began, a page at a time in any order; each change read is current when its page is. Versions committed after a read began are the next round's.
- Different feeds share no record names.
- `send`: the batch limit and the eight parallel senders. Attempts are any number of concurrent machines instead.
- Response codes, error messages, payloads, metrics and the other delivery fields no branch depends on.
- JSON and reflection: a value is its encoding, and encoding does not fail.
- The drivers beyond their contracts; a driver without sets, which refuses what needs them.
- `TTL` values of documents: an entry may expire at any moment whatever its lease. In read-through they are modelled.
- `ReadThrough.Cache.GetOrLoad`: a miss runs the load if the flight has room, which it is given; a caller that joins another's flight gets that call's result by `Flights.WokenGetsItsCall`.
- `Refresh` and `Invalidate`: one call each to what is modelled.
- A sweep that falls between the two writes of a create: the indexed strategy is modelled one operation at a time. The source removes the new member then.
- `IndexedEntries.Indexed.DeleteByIndex`: no driver call fails, because index members go before entries and a failure in between leaves an entry no index names, not even the main one.
- `IndexedEntries.Indexed.Update`: nothing is said of where an id is filed whose refiling or unfiling stopped part way.
- `IndexedEntries.Indexed.Create`: ids are never used twice, because filing under an id that has a record adds to it.
- `Gathering.Gather`: the caller's context is not canceled, because the source then answers success with gaps.
- `Globs.Match`: the glob of a RESP server, which is no part of this repository: stars, question marks, classes with ranges and negation, and escapes, over characters. Other servers' globs are not modelled.
- `Drops.Server.Drop`: writes that arrive during a walk are not modelled.
- `Dispatch.World.constructor`: the methods of the dispatcher are stated for delays it tolerates; what happens beyond them is in the module of limits.
- Clocks that disagree: the servers, the store and whoever stamps a change read one clock.
- Liveness beyond `Flights.NoWaiterIsStranded`: that a step that can be taken is taken.
- The cache's middleware, typed views, volatile strategy and telemetry, and the packages around them: one-branch wrappers.
