# ContestSync, modelled in Dafny

ContestSync collects programming contests from seven platforms and writes them into
its users' Google calendars. This project models the protocols that hold it together
and proves what they keep, for all inputs and over all runs. The outside world
is abstract state: tables are maps, caches are optional values, the broker is a queue
with unacknowledged deliveries, a calendar is a map from event ids to events. Every
external call may fail, before or after it took effect.

| file | what it models |
|---|---|
| `Ledger.dfy` | the insert-or-restore loop and the `synced_events` ledger as an interleaved step system |
| `SyncEngine.dfy` | one run of `SyncUser` as a function of the state and of every answer it gets |
| `Syncer.dfy` | `SyncUser` as a class with its loops, proved equal to that function |
| `SyncIdempotence.dfy` | fault-free runs: what they record, when the synced-ids cache may be trusted, the second run |
| `SyncEvents.dfy` | what a run leaves in the calendar |
| `SyncLive.dfy` | which rows have a live event in the run's calendar |
| `SyncReselect.dfy` | cached ids of deselected contests |
| `SyncRevocation.dfy` | what a revoked grant does to a run |
| `SyncByRow.dfy` | a run in terms of the user's row: which calendar it writes to, when it reports an error |
| `SyncOutcome.dfy` | the outcome of one contest under any answers |
| `SyncExamples.dfy` | failing runs in full, from the start of the system |
| `EngineRuns.dfy` | runs of the whole system: users, contests, syncs and calendars together |
| `SyncedIds.dfy` | the synced-ids cache over runs of the whole system |
| `ContestStore.dfy` | the contests table, extraction, pruning, the per-platform caches and the assembly |
| `UserStore.dfy` | the users table, the user cache and `SavePreferences` |
| `TaskQueue.dfy` | acknowledgements, retries and redelivery of the AMQP consumers |
| `Connection.dfy` | `connectAMQP` racing with `Close` |
| `Lease.dfy` | the per-user sync lock, with Valkey and without |
| `RateLimiter.dfy` | the fixed-window limiter with its sweep |
| `ICalFeed.dfy` | text escaping and the iCal feed, with a parser as its inverse |
| `TableScanner.dfy` | the AtCoder table scanner, with a printer as its inverse |
| `AtCoderRows.dfy` | what a row of that table says, and when it is skipped |
| `Telegram.dfy` | the message splitter and the HTML escape |
| `Ids.dfy` | contest ids and deterministic event ids |
| `Strings.dfy`, `Common.dfy` | string searches and small shared types |

## What the models take for granted

- A publish that returns nil reached the broker. The code does not turn on confirm mode,
  although the repository's own README mentions confirmations; the model follows the code.
- "No task is lost" is about the AMQP route. When AMQP is configured but the first
  connection fails, publishes go to in-memory channels that nothing consumes, because the
  in-memory consumers start only when AMQP is not configured.
- Replicas equal the primary. A read with the cache fill after it is one step, and so is a
  write with its invalidation. A batch of inserts is one transaction.
- Google answers an insert with the id it was given, an id that is taken (also by a
  cancelled event) is a conflict, and an update restores a cancelled event.
- A fetcher returns contests of its own platform whose ids come from `GenerateContestID`; for
  the AtCoder fetcher this is proved (`FetchedIsBatch`).
- `time.Parse` and `strconv.Atoi` on the AtCoder page are any functions of their text.
- MD5 is any function to 16 bytes; JSON encoding and decoding are inverse to each other;
  time stamps, time zones and formatted dates are opaque.

## Findings

- A closed interval as long as the window lets through at most 2·max − 1 calls of a key, one
  less than two full windows, and that bound is reached (`IntervalBoundIsTight`).
- Contest ids determine platform and start for every platform name, also one with an
  underscore, because the start is read after the last underscore (`ContestIdRoundTrip`).
- Attributes without `>` do not make a table row safe to scan: with an attribute that ends in
  `</tr` the tag's own bracket ends the row, and the row loop finds no cell where there is one
  (`AttributeCanEndTheRow`). The row loop takes a row as it was printed if and only if its tail
  has no row end and no cell makes one (`RowScanExact`).
- The deselection drops ledger rows but not the synced-ids cache; only a run that records
  something drops it. A contest that is deselected and selected again is therefore recorded again
  if and only if the run that deselected it recorded some other contest
  (`ReselectedIsRecordedIff`); `ReselectedExample` reaches a state in which it is skipped. A run
  that trusts the cache leaves the ledger of one that does not if and only if every cached id
  that is read, considered and stored is in the ledger (`TrustIsHarmlessIff`).
- The deselection drops the row whatever Google answers, so a live event whose deletes never
  reach Google stays in the calendar and no row remembers it (`UnreachedEventIsOrphaned`, with the
  exact condition in `DeselectedEventIsCancelledIff`).
- Switching to a dedicated calendar leaves it without the events already recorded: a row counts
  as synced whichever calendar its event is in (`RowIsLiveIff`, and a run in
  `SwitchedCalendarExample`).
- A second run is quiet if and only if every considered contest is stored
  (`SecondRunIsQuiet`): a cached contest whose row was pruned cannot be recorded, and its
  event is sent on every run (`PrunedContestIsSentAgain` reaches such a state).
- A save can report success and store nothing: when a cached entry equal to the request hides a
  different row, or when there is no row, which pruning leaves behind a cached user without any
  failure (`PrunedUserIsSavedNowhere`). `SaveStoresTheRequest` is the exact condition.
- A batch whose invalidation fails or is skipped leaves the cached list complete if and only if
  the list already held every upcoming contest of the batch
  (`SkippedInvalidationHidesContests`); one failed invalidation of a user lets a save be
  dropped (`FailedInvalidationBreaksAgreement`). Both agreements hold over every run for the
  entries to which this did not happen.
- The lease excludes exactly when holders finish in less than five minutes
  (`LeaseTheorem`); at five minutes two holders meet.
- The feed is read back if and only if nothing it writes without escaping holds a CRLF
  (`FeedRoundTrip`); the URL line is written raw.

## Model

| member | source | states |
|---|---|---|
| `Ledger.StepKeepsInv` | internal/sync/sync.go:405-460 | every Google call, row write, deletion, crash and outside change keeps: rows and events carry the deterministic id of their contest, Google took the event, rows are unique per event |
| `Ledger.LedgerIsSafe` | internal/sync/sync.go:372-460 | the same over every interleaving of any number of workers with failures anywhere |
| `Ledger.AcceptedBeforeRecorded` | internal/sync/sync.go:436-459 | a row appears only through a write whose event Google had already taken, and Google takes an event only through an insert or update that reached it |
| `Ledger.RowGoesIff` | migrations/001_init.sql:28-35 | a row goes if and only if a delete of that row takes effect, or its user or its contest goes; till then it keeps its event |
| `Ledger.OneEventPerContest` | internal/sync/sync.go:378-381 | in every reachable state no calendar of a Google account holds two events for one contest, also when the account had several user ids |
| `SyncEngine.SyncIsALedgerRun` | internal/sync/sync.go:36-470 | whatever fails, a whole SyncUser run moves calendars and ledger by steps of the ledger system and keeps users, contests and ledger in agreement |
| `SyncEngine.LoadedOwner` | internal/sync/sync.go:99-106 | the event ids computed from the loaded user, cached or not, are those of the account the user id was given |
| `EngineRuns.StepKeepsInv` | internal/scheduler/scheduler.go:50-76 | each login, save, deletion, extraction, prune, assembly, SyncUser run or calendar change, with the cascades of the foreign keys, keeps the invariant of the whole system |
| `EngineRuns.SystemIsSafe` | migrations/001_init.sql:28-35 | the invariant that the theorems about one run assume holds along every run of the system |
| `EngineRuns.SystemIsSafeFromStart` | migrations/001_init.sql:1-35 | and in every state reached from empty tables and caches |
| `EngineRuns.DeletedAccountLeavesNothing` | internal/api/handlers.go:724-736 | a deleted account leaves no row, no ledger row and no cached user, and its id has no row and no ledger row in any later state of the system |
| `EngineRuns.PruneTakesEndedRows` | internal/scheduler/scheduler.go:50-76 | pruning past contests takes the ledger rows of exactly the ended ones with them |
| `SyncEngine.DeselectExact` | internal/sync/sync.go:193-247 | with its statements succeeding the deselection removes exactly the user's rows of unselected platforms, whatever Google answers |
| `SyncEngine.DriveRows` | internal/sync/sync.go:405-459 | working on one contest adds at most that contest's row, only for a stored contest, and removes none |
| `SyncEngine.ContestsSelected` | internal/sync/sync.go:300-370 | every considered contest is of a selected platform under its own id, from caches or from the query |
| `SyncEngine.DeselectionIsComplete` | internal/sync/sync.go:193-247 | after a run that returns nil with its statements succeeding, every ledger row of the user is of a platform selected in that run, even when every Google delete fails |
| `Syncer.Syncer.DeleteEventRetrying` | internal/sync/sync.go:222-235 | the three-attempt delete loop equals its specification for every sequence of answers |
| `Syncer.Syncer.RemoveDeselected` | internal/sync/sync.go:198-247 | the listing and deletion loops equal the deselection function |
| `Syncer.Syncer.LoadSynced` | internal/sync/sync.go:249-294 | the synced ids from the cache, or from the ledger with the cache filled, or none |
| `Syncer.Syncer.GatherContests` | internal/sync/sync.go:300-370 | the cache reads, the query for the missed platforms and the fills equal the assembly function |
| `Syncer.Syncer.InsertRetrying` | internal/sync/sync.go:405-421 | the three-attempt insert loop ends in a taken event, a conflict, giving up or a revoked grant, on the way of the specification |
| `Syncer.Syncer.UpdateRetrying` | internal/sync/sync.go:423-446 | the three-attempt restore loop ends in a taken event or giving up |
| `Syncer.Syncer.SyncContests` | internal/sync/sync.go:372-460 | the contest loop, with its early return on a revoked grant, equals its specification |
| `Syncer.Syncer.HandleRevoked` | internal/sync/sync.go:478-495 | unless its DELETE is refused the user's row and every ledger row of the user are gone, with the DEL the cached user too; other users and the calendars stay |
| `SyncRevocation.OnlyRevocationForgets` | internal/sync/sync.go:153-180 | a run in which no checked call is answered with a revoked grant, or whose DELETE is refused, leaves every user in place |
| `SyncRevocation.RevokedEarlyForgets` | internal/sync/sync.go:153-180 | a run that learns at the first request or at the calendar creation that the grant is gone returns nil and leaves nothing of the user |
| `SyncRevocation.LoopHaltsIff` | internal/sync/sync.go:407-421 | the insert loop ends the run if and only if some contest that is not taken as synced meets a revoked grant, at whichever contest and attempt |
| `SyncRevocation.RunForgetsIff` | internal/sync/sync.go:153-180 | a whole run whose DELETE takes effect removes a user who has a row if and only if it gets to a call answered with a revoked grant, at the first request, at the calendar creation or at any insert; it then returns nil and nothing of the user is left |
| `Syncer.Syncer.SyncUser` | internal/sync/sync.go:36-470 | the whole method equals the specification function, keeps its invariant, and is a run of the ledger system |
| `SyncIdempotence.SyncAllServed` | internal/sync/sync.go:372-460 | served throughout, the loop records in order the contests not taken as synced, and calls Google exactly when there is one |
| `SyncIdempotence.RecordedExact` | internal/sync/sync.go:436-459 | without digest collisions the rows after the loop are the old ones and those of the stored, considered contests not taken as synced |
| `SyncIdempotence.CacheHarmlessIff` | internal/sync/sync.go:372-376 | for the loop: taking ids as synced records what a loop without them records if and only if every considered and stored contest among them is in the ledger |
| `SyncIdempotence.TrustIsHarmlessIff` | internal/sync/sync.go:254-294 | for whole runs: a run that trusts the synced-ids cache and one that reads the ledger leave one ledger if and only if every cached id that is read, considered and stored is in the ledger |
| `SyncIdempotence.StaleLowIsHarmless` | internal/sync/sync.go:249-294 | with the cached ids a subset of the ledger when read, a fault-free run ends with the ledger of a run that reads the ledger directly |
| `SyncIdempotence.FaultFreeRunSyncsEverything` | internal/sync/sync.go:300-460 | a fault-free run records every stored upcoming contest of the selected platforms under its deterministic id |
| `SyncIdempotence.LoadAgain` | internal/sync/sync.go:165-191 | after a run the next one loads the same platforms and, where one is wanted, the calendar that was created |
| `SyncIdempotence.SecondRunIsQuiet` | internal/sync/sync.go:165-467 | an immediate second fault-free run makes no calendar creation, insert, update or delete if and only if every considered contest is stored |
| `SyncIdempotence.CachedIsNeverRecorded` | internal/sync/sync.go:263-266 | a run that reads an id from the synced-ids cache never records it, whatever else happens |
| `SyncReselect.RunKeepsCacheIff` | internal/sync/sync.go:462-467 | a fault-free run that reads the cached ids drops them if and only if some considered contest is stored and not among them |
| `SyncReselect.RunFillsCache` | internal/sync/sync.go:268-294 | a fault-free run that finds no cached ids leaves none if it records something, and else exactly the ids of the user's rows |
| `SyncReselect.DeselectedIdStaysIff` | internal/sync/sync.go:222-267 | after a fault-free run that deselects a contest with a cached id, whatever stays selected, the row is gone and the id is still cached if and only if the run recorded nothing |
| `SyncReselect.ReselectedIsRecordedIff` | internal/sync/sync.go:222-467 | deselect, run, select again, run, both runs fault-free: the contest is recorded again if and only if the first run recorded some other contest |
| `SyncExamples.ReselectedExample` | internal/sync/sync.go:222-267 | a state reached from the start of the system in which a fault-free run skips a stored, upcoming contest of a selected platform, for every announced contest |
| `SyncExamples.SwitchedCalendarExample` | internal/sync/sync.go:165-190 | a state reached from the start in which a fault-free run leaves its new dedicated calendar without the event of a recorded, upcoming contest |
| `SyncExamples.PrunedContestIsSentAgain` | internal/sync/sync.go:454-459 | a state reached from the start in which two fault-free SyncUser runs in a row both call Google |
| `SyncIdempotence.DistinctUnlessDigestCollides` | internal/sync/sync.go:472-476 | a user's event ids are distinct if and only if the digest does not collide on that user's contests |
| `SyncEvents.DrivePlaces` | internal/sync/sync.go:405-459 | whatever fails, working on one contest leaves its event live when it adds the row, never takes a live event away and touches no other event |
| `SyncLive.DriveRestores` | internal/sync/sync.go:423-444 | served, working on one contest leaves its event live, created or restored where it was cancelled |
| `SyncEvents.NewRowHasLiveEvent` | internal/sync/sync.go:372-460 | whatever fails during the run, a row it adds has its event live in the run's calendar when the run ends |
| `SyncEvents.NextRunSameCalendar` | internal/sync/sync.go:165-191 | two fault-free runs in a row write to the same calendar, also when the first one had to create it and the user was cached |
| `SyncByRow.LoadedAgrees` | internal/sync/sync.go:62-97 | cached or read, the user a run works with is the row, column by column, unless the last invalidation of its entry failed |
| `SyncByRow.RunCalendarIsTheRows` | internal/sync/sync.go:165-191 | the run's calendar is the primary one without the dedicated flag, else the calendar the row remembers, else the one just created, the primary one if the creation failed, none if it met a revoked grant; always in the account of the row |
| `SyncByRow.CreatesIff` | internal/sync/sync.go:165-191 | a run asks Google for a new calendar, with one call, if and only if the row wants a dedicated one and remembers none; the new one is remembered unless the statement is refused |
| `SyncByRow.LoadCachesIff` | internal/sync/sync.go:58-97 | a run caches the user, as the row has it, if and only if the entry was missed, the row is read and Valkey takes the write; nothing else changes |
| `SyncByRow.NewRowIsInTheRowsCalendar` | internal/sync/sync.go:165-459 | whatever fails, a ledger row the run adds has its event live, when the run ends, in the calendar that the user's row asks for |
| `SyncByRow.OnlyTheRowsCalendarChanges` | internal/sync/sync.go:165-459 | whatever fails, no other calendar of any account changes |
| `SyncByRow.OnlyTheRowsPlatformsRemain` | internal/sync/sync.go:193-247 | after a run that returns nil with its statements succeeding, every ledger row of the user is of a platform in the user's row |
| `SyncByRow.RunErrsIff` | internal/sync/sync.go:36-470 | a run reports an error if and only if the lock is taken, the user cannot be read, the grant cannot be used, the primary calendar cannot be fetched, or the contests are needed and cannot be read |
| `SyncOutcome.ContestOutcome` | internal/sync/sync.go:405-459 | under any answers, the exact condition on the up to three inserts, the up to three updates and the statement for one contest to have its row, and for its event to be live |
| `SyncOutcome.ContestTally` | internal/sync/sync.go:405-460 | under any answers, the exact number of calls one contest takes, one to six, and exactly when it makes the run drop the synced-ids cache |
| `SyncEvents.DeselectCancelsIff` | internal/sync/sync.go:222-235 | the deselection leaves no live event under an id if and only if there was none or one of the up to three deletes of a listed row with that event takes effect |
| `SyncEvents.DeselectDropsIff` | internal/sync/sync.go:198-247 | whatever Google answers, the deselection drops a row if and only if it is the user's, is listed, and a statement that deletes it takes effect |
| `SyncEvents.DeselectedEventIsCancelledIff` | internal/sync/sync.go:193-460 | whatever else fails, at the end of a run its calendar has no live event for a contest of a deselected platform if and only if it had none or one of the run's deletes of it takes effect |
| `SyncEvents.UnreachedEventIsOrphaned` | internal/sync/sync.go:236-245 | a live event whose deletes never reach Google stays live while its row is gone |
| `SyncLive.RowIsLiveIff` | internal/sync/sync.go:165-460 | after a fault-free run a row of the user has its event live in the run's calendar if and only if it was live there before or the contest was considered and its id was not read as synced |
| `SyncLive.OtherCalendarsUntouched` | internal/sync/sync.go:165-460 | whatever fails, a run touches no calendar but its own |
| `SyncedIds.SyncRemoves` | internal/sync/sync.go:193-247 | whatever fails, a run removes a row only if it is the user's and of a platform the run does not select, or together with the user |
| `SyncedIds.LostCause` | migrations/001_init.sql:28-35 | over all steps of the system a row goes only by a run that does not select its platform, or with its user or its contest |
| `SyncedIds.CachedIdsOverRuns` | internal/sync/sync.go:249-294 | over every run of the system a cached id has its row in the ledger, unless that row went since the id was cached |
| `SyncedIds.CachedIdsFromStart` | internal/sync/sync.go:249-294 | the same from the start of the system, where nothing is cached |
| `SyncedIds.SyncedReadIff` | internal/sync/sync.go:249-294 | the ids taken as synced are the cached ones, else the ledger's, else none, and the ledger's are cached if and only if they were read and Valkey takes the write |
| `ContestStore.UpsertAllExact` | internal/queue/amqp.go:670-688 | a batch leaves its last entry per id and touches nothing else, and ids still encode platform and start |
| `ContestStore.ExtractionExact` | internal/queue/amqp.go:655-695 | with prune and batch done: other platforms and started rows outside the batch unchanged, the platform's upcoming rows exactly the batch's, last entry winning |
| `ContestStore.NothingFetchedNothingChanged` | internal/queue/amqp.go:641-658 | an unknown platform, a failed fetch or an empty one changes nothing, and only the first two are errors |
| `ContestStore.ExtractErrsIff` | internal/queue/amqp.go:641-703 | an extraction reports an error if and only if the platform is unknown, the fetch fails, or there are contests and their batch is not confirmed; a failed prune is none |
| `ContestStore.PruneOldTakesEnded` | internal/scheduler/scheduler.go:50-76 | pruning takes exactly the contests that have ended and changes no cached list |
| `ContestStore.CachedAssemblyRefinesDirect` | internal/sync/sync.go:300-370 | any mix of cache hits and misses considers every contest the uncached query returns |
| `ContestStore.AssemblyIsSelected` | internal/sync/sync.go:300-370 | the assembly considers only contests of the selected platforms under their own ids |
| `ContestStore.ColdAssemblyIsDirect` | internal/sync/sync.go:316-349 | with nothing cached the assembly returns exactly what the uncached query returns |
| `ContestStore.FillsExact` | internal/sync/sync.go:339-348 | the fills replace the lists of exactly the platforms whose write succeeds |
| `ContestStore.AssembleAgain` | internal/sync/sync.go:302-349 | assembled again at once, the same contests are considered |
| `ContestStore.CachesCoverOverRuns` | internal/queue/amqp.go:665-695 | over every run, a cached list holds every stored contest of its platform still to come, unless a batch of it went without its invalidation |
| `ContestStore.ExtractKeepsInv` | internal/queue/amqp.go:641-703 | the same through an extraction with any of its statements failing, also a prune that succeeded before a failed batch |
| `ContestStore.ShrinkKeepsInv` | internal/scheduler/scheduler.go:50-76 | deleting past contests or letting time pass keeps every cached list complete |
| `ContestStore.SkippedInvalidationHidesContests` | internal/queue/amqp.go:683-695 | after any batch took effect the cached list is complete if and only if the invalidation happened or the list already held every upcoming contest of the batch as the batch has it |
| `ContestStore.PrunedContestStaysCached` | internal/queue/amqp.go:665-688 | a contest pruned by an extraction whose batch then fails stays in the cached list without a row |
| `ContestStore.GroupByPlatform` | internal/sync/sync.go:325-336 | the grouping loop gives every missed platform its contests in listing order |
| `ContestStore.CollectIds` | internal/queue/amqp.go:660-663 | the id loop collects the batch's ids in order |
| `ContestStore.Stores.SendBatch` | internal/queue/amqp.go:670-688 | the queued statements take effect together or not at all |
| `ContestStore.Stores.HandleExtraction` | internal/queue/amqp.go:641-703 | the method equals its specification, keeps the invariant, and meets the extraction postcondition when it reports no error after a prune that succeeded |
| `ContestStore.Stores.ReadCaches` | internal/sync/sync.go:301-314 | the cache loop splits the platforms into contests found and platforms missed |
| `ContestStore.Stores.FillCaches` | internal/sync/sync.go:339-348 | the fill loop caches each missed platform's list and collects its contests |
| `UserStore.LoginKeepsInv` | internal/api/handlers.go:286-307 | the upsert by Google id with its invalidation keeps ids unique and the cache in agreement, also with its answer lost |
| `UserStore.LoginUpserts` | internal/api/handlers.go:286-299 | a login leaves one row for its Google id with the given address and access, a new grant only if it brought one, preferences and other users untouched |
| `UserStore.RemovedForever` | migrations/001_init.sql:3-15 | over every run an id whose row is gone never comes back |
| `UserStore.OneGoogleIdPerUser` | internal/api/handlers.go:286-307 | over every run all rows and cached users of an id, also stale ones, carry one Google id |
| `UserStore.CacheAgreesOverRuns` | internal/sync/sync.go:62-97 | over every run of fills, also those that overwrite after a failed read, logins, saves, calendar creations, deletions, prunes and expiries, a cached user equals its row column by column in everything but has_calendar_access, unless its last invalidation failed |
| `UserStore.CleanRunsAgree` | internal/api/handlers.go:286-307 | when no invalidation fails or is skipped, every cached user agrees with its row in every reachable state |
| `UserStore.AccessIsNotLoaded` | internal/sync/sync.go:78-96 | the flag two fills do not load can differ between cache and row |
| `UserStore.FillServesTheRow` | internal/sync/sync.go:62-97 | a read-through that writes leaves an entry that agrees with the row and touches no other entry; the flag is loaded only where the query selects it |
| `UserStore.DeletedAccountStaysGone` | internal/api/handlers.go:724-736 | unless its statement is refused a deletion takes that row and no other, in every later state too; the cached user goes if and only if the statement is confirmed and the invalidation succeeds |
| `UserStore.CalendarIsRemembered` | internal/sync/sync.go:181-188 | a created calendar is stored in the user's row and changes nothing else, unless the statement is refused; the cached user goes with the invalidation |
| `UserStore.PruneTakesUngranted` | internal/scheduler/scheduler.go:59-62 | pruning takes exactly the chosen users without a grant and no cached user |
| `UserStore.FailedInvalidationBreaksAgreement` | internal/api/handlers.go:892-910 | one failed invalidation breaks the agreement, and then a save of the cached preferences is skipped although the row differs |
| `UserStore.SaveStoresTheRequest` | internal/api/handlers.go:822-910 | after every save that reports success the row holds the requested platform multiset and flag, also when the write was skipped, if and only if there is a row and no cached entry equal to the request hid a different one; other users are untouched |
| `UserStore.SaveIsTrusted` | internal/api/handlers.go:892-898 | with a row and an entry that is not stale, success means stored, and giving up the dedicated calendar forgets it |
| `UserStore.SaveAnswers` | internal/api/handlers.go:811-910 | a save is a bad request exactly for an unknown platform, an error exactly when there is nothing to compare with or a needed write is not confirmed, and else says whether the preferences differ |
| `UserStore.SaveDropsEntryIff` | internal/api/handlers.go:822-910 | a save drops the cached user if and only if it stored something and the invalidation succeeds; otherwise the entry is the old one, or the row's where the read-through filled it |
| `UserStore.SaveKeepsTheRest` | internal/api/handlers.go:892-898 | whatever a save answers, other users, the account, the grant and the access flag stay, and the calendar goes only together with the dedicated flag |
| `UserStore.PrunedUserIsSavedNowhere` | internal/scheduler/scheduler.go:59-62 | a run without any failure after which a save reports success and no row holds it |
| `UserStore.PreferencesChanged` | internal/api/handlers.go:873-890 | the length test and the count loops answer yes if and only if the platform multisets or the flags differ |
| `UserStore.Validate` | internal/api/handlers.go:811-820 | accepts exactly the lists of known platforms |
| `UserStore.Handlers.SavePreferences` | internal/api/handlers.go:811-910 | the method equals its specification, keeps the invariant, and a success is stored under exactly that condition |
| `TaskQueue.StepKeepsCovered` | internal/queue/amqp.go:348-394 | each action of broker, handler or network keeps every published task covered, because the retry copy is published before the acknowledgement |
| `TaskQueue.NoTaskIsLost` | internal/queue/amqp.go:348-394 | over every run each published task is queued, unacknowledged, handled, or failed at retry count 2 |
| `TaskQueue.RunKeepsInv` | internal/queue/amqp.go:353-389 | over every run retry counts stay within 0 to 2 and every task stays covered |
| `TaskQueue.WorkIsBounded` | internal/queue/amqp.go:496-542 | handler calls are at most 3 per published task and 3 more per call that was not acknowledged, for any selection of tasks |
| `TaskQueue.AtMostThreeAttempts` | internal/queue/amqp.go:501-537 | a task whose calls were all acknowledged is tried at most three times |
| `TaskQueue.EveryCountIsTried` | internal/queue/amqp.go:353-389 | over every run each copy of a task, queued or delivered, was preceded by a failed handler call at every lower retry count |
| `TaskQueue.GivenUpMeansThreeTries` | internal/queue/amqp.go:501-537 | a task that is given up had at least three handler calls, and exactly three when all were acknowledged |
| `TaskQueue.Consumer.HandleDelivery` | internal/queue/amqp.go:348-394 | the handler goroutine is a run of the step system; a failed call below the limit puts exactly one copy with the next retry count at the end of the queue and acknowledges, or gives the message back when that copy could not be published |
| `Connection.NoLeakBetweenConnects` | internal/queue/amqp.go:83-152 | under any interleaving of connects, Close and network failures, between connects the only open connection and channel are the current ones |
| `Connection.ClosedForever` | internal/queue/amqp.go:737-751 | once Close has returned, connection and channel are nil in every later state, whatever was in progress |
| `Connection.NewQueueIsSafe` | internal/queue/amqp.go:83-152 | both from a new queue on |
| `Connection.Queue.ConnectAMQP` | internal/queue/amqp.go:83-152 | a run of the step system that succeeds if and only if the queue is open and is connected already or every call succeeds, then with a healthy connection installed; otherwise connection and channel are as they were |
| `Connection.Queue.Close` | internal/queue/amqp.go:737-751 | marks the queue closed and leaves nothing installed |
| `Lease.LeaseTheorem` | internal/sync/sync.go:37-50 | over all interleavings, crashes and failed releases at most one worker per user is inside and a release removes only its own lock, if and only if holders finish in less than 5 · 60 · 1000 ms |
| `Lease.OverrunBreaksTheLock` | internal/sync/sync.go:39-49 | a holder that takes five minutes or more lets a second one in |
| `Lease.LockedIff` | internal/sync/sync.go:37-50 | over every run a user is locked exactly while a worker is inside for that user, or for the rest of the five minutes of one that left without a release |
| `Lease.ReleaseLetsNextIn` | internal/sync/sync.go:42-49 | after a release any worker can acquire the lock at once |
| `Lease.LocalTheorem` | internal/sync/sync.go:51-56 | the process-local lock excludes over every run, without any assumption about time |
| `Lease.LocalFreeIff` | internal/sync/sync.go:51-56 | after any run a user can enter if and only if nobody is inside for that user, at once after a leave and after the process is gone |
| `RateLimiter.LocalLimiter.Allow` | internal/api/middleware.go:34-66 | the method with its sweep equals the limiter function on the counters |
| `RateLimiter.SweepTakesExpired` | internal/api/middleware.go:43-49 | a call keeps all other entries of a table of at most 10000, and of a larger one exactly those that have not expired, unchanged |
| `RateLimiter.NonInterference` | internal/api/middleware.go:42-65 | over every ordered trace the answers to one key are those of a limiter that sees only that key's calls and never sweeps |
| `RateLimiter.WindowIsExact` | internal/api/middleware.go:51-65 | in every trace, whatever other keys do, a window that a key's call opens lets through exactly the quota of that key's calls from there on, or every call if there are fewer |
| `RateLimiter.IntervalBound` | internal/api/middleware.go:42-65 | over every trace a closed interval as long as the window lets through at most 2·max − 1 calls of a key |
| `RateLimiter.IntervalBoundIsTight` | internal/api/middleware.go:42-65 | for every maximum and window the limiter's own answers to some trace reach that bound |
| `ICalFeed.EscapeIsOnePass` | internal/api/handlers.go:920-927 | the chain of replacements is one pass of a character map |
| `ICalFeed.EscapedIsText` | internal/api/handlers.go:920-927 | its output has no raw newline or CR and no unescaped comma or semicolon (section 3.3.11 of RFC 5545) |
| `ICalFeed.EscapeRoundTrip` | internal/api/handlers.go:920-927 | unescaping recovers the text without its CRs |
| `ICalFeed.LinesRoundTrip` | internal/api/handlers.go:1002-1046 | content lines (section 3.1 of RFC 5545) are read back from their text |
| `ICalFeed.ItemsRoundTrip` | internal/api/handlers.go:1023-1037 | nested components with balanced BEGIN and END are read back from their tokens |
| `ICalFeed.RenderFeed` | internal/api/handlers.go:1001-1046 | the buffer the loop writes is the feed of the rows |
| `ICalFeed.FeedRoundTrip` | internal/api/handlers.go:1001-1046 | parsing the rendered feed recovers every event in order, with its summary, description, link, times and identifier spelled out, if and only if no field written raw holds a CRLF (sections 3.4 and 3.6.1 of RFC 5545) |
| `ICalFeed.FeedShape` | internal/api/handlers.go:1002-1037 | a feed that is read back is one calendar with its five properties, and each event has one displayed reminder thirty minutes before |
| `ICalFeed.ReadIsClean` | internal/api/handlers.go:1023-1031 | whatever text is parsed, no raw field of an event read from it holds a CRLF |
| `TableScanner.ExtractCells` | internal/extractor/atcoder.go:100-120 | the cell loop terminates and equals the cell function |
| `TableScanner.CellsOfPrintedRow` | internal/extractor/atcoder.go:100-120 | scanning a printed row returns exactly its cells in order |
| `TableScanner.NextRowExact` | internal/extractor/atcoder.go:34-45 | the row loop takes a row's own text and goes on after it if and only if that text holds no row end |
| `TableScanner.RowTextExact` | internal/extractor/atcoder.go:40-45 | a printed row holds no row end of its own if and only if its tail has none and no cell makes one |
| `TableScanner.RowScanExact` | internal/extractor/atcoder.go:34-45 | the row loop takes a row as it was printed if and only if its tail has no row end and no cell makes one |
| `TableScanner.AttributeCanEndTheRow` | internal/extractor/atcoder.go:34-47 | a table whose only cell has an attribute without a bracket and from whose row the scanner takes no cell |
| `TableScanner.ScanTable` | internal/extractor/atcoder.go:33-97 | the row loop terminates and collects the contests of the rows it finds |
| `TableScanner.TableRoundTrip` | internal/extractor/atcoder.go:33-97 | scanning a printed table gives the contests of its rows in order |
| `TableScanner.FetchContests` | internal/extractor/atcoder.go:18-97 | an error without a second table body, else the contests of that table, each under its own id; what a table and a row say is in `AtCoderRows` |
| `TableScanner.FetchedIsBatch` | internal/extractor/atcoder.go:85-94 | what the fetcher returns is a batch of its platform as extraction needs it |
| `TableScanner.TableOnPage` | internal/extractor/atcoder.go:18-31 | the table of a page is found between its second opening tag and the next closing one |
| `TableScanner.StripTagsLoop` | internal/extractor/atcoder.go:152-169 | the loop with its flag equals the function that keeps the characters outside tags and trims |
| `TableScanner.StripTagsIdempotent` | internal/extractor/atcoder.go:152-169 | the output has no angle brackets, and stripping again changes nothing |
| `TableScanner.VisibleOfMarkup` | internal/extractor/atcoder.go:152-169 | on text with tags in it, what is kept is exactly the text |
| `AtCoderRows.TableIff` | internal/extractor/atcoder.go:18-31 | a table is found if and only if it is the text between the second opening and the next closing tag of a table body |
| `AtCoderRows.TrimIff` | internal/extractor/atcoder.go:152-169 | trimming takes the spaces around and nothing else |
| `AtCoderRows.HrefIff` | internal/extractor/atcoder.go:122-133 | a non-empty link is found if and only if it is the text between the first `href="` and the next quote |
| `AtCoderRows.TimeIff` | internal/extractor/atcoder.go:57-64 | the time is the text after the first `?iso=` up to the next ampersand, if there is one |
| `AtCoderRows.NameIff` | internal/extractor/atcoder.go:135-150 | a non-empty name is the text of the link without its tags and the spaces around it |
| `AtCoderRows.DurationIff` | internal/extractor/atcoder.go:71-78 | hours and minutes are the two sides of the first colon in the cell's trimmed text |
| `AtCoderRows.RowIff` | internal/extractor/atcoder.go:47-94 | a row becomes a contest if and only if its first three cells say it: link, time, name and duration, with the start that the time stands for |
| `AtCoderRows.RowSkippedIff` | internal/extractor/atcoder.go:47-83 | a row is skipped if and only if its cells say nothing or the time cannot be parsed |
| `AtCoderRows.PrintedRowIsScanned` | internal/extractor/atcoder.go:47-94 | a printed contest row is read back: its name, its link under the site's address, its start, and an end after 3600 seconds per hour and 60 per minute |
| `AtCoderRows.PageRoundTrip` | internal/extractor/atcoder.go:18-97 | from a page whose second table lists contests the scanner gets exactly these, in order |
| `Telegram.SplitMessage` | internal/observability/telegram.go:48-62 | the loop terminates and returns the chunks of the specification |
| `Telegram.SplitIsLossless` | internal/observability/telegram.go:48-62 | the chunks concatenate to the text |
| `Telegram.SplitFits` | internal/observability/telegram.go:48-62 | every chunk fits the limit and no chunk but the last is empty |
| `Telegram.CutsAtNewlines` | internal/observability/telegram.go:50-59 | every chunk but the last ends before the last newline in reach, at the limit when there is none, and after a newline that is the only one in reach and comes first |
| `Telegram.ThreeChunksFillTheLimit` | internal/observability/telegram.go:50-59 | any three consecutive chunks before the last cover at least the limit |
| `Telegram.ChunkCount` | internal/observability/telegram.go:48-62 | there are at most 3·(length / limit) + 3 chunks |
| `Telegram.EscapeHTMLIsOnePass` | internal/observability/telegram.go:39-46 | the chain of replacements is one pass of a character map whose output has no angle brackets |
| `Telegram.EscapeHTMLRoundTrip` | internal/observability/telegram.go:39-46 | unescaping recovers the text without its NULs |
| `Ids.ContestIdRoundTrip` | internal/extractor/contest.go:56-58 | platform and start are read back from an id, whatever the platform's name |
| `Ids.ContestIdInjective` | internal/extractor/contest.go:56-58 | equal ids mean equal platform and start |
| `Ids.Base32HexInjective` | internal/sync/sync.go:475-475 | unpadded lower-case base32hex (section 7 of RFC 4648) is injective on byte strings of one length |
| `Ids.Base32HexNumber` | internal/sync/sync.go:475-475 | read as a number to the base 32, with 0-9 before a-v, it is the number the bytes stand for, filled up with zero bits to a full last digit |
| `Ids.EventIdShape` | internal/sync/sync.go:472-476 | an event id is 26 characters of 0-9 and a-v |
| `Ids.EventIdCollision` | internal/sync/sync.go:472-476 | for Google ids without an underscore, event ids coincide if and only if the pairs do or the digest collides |

## Left out

- `SyncUser`'s status updates (`sync_status`, `last_sync_at`) and Telegram notices: they decide nothing later.
- Row scan errors in the listings: they would only make a listing shorter.
- Other workers inside one `SyncUser` run of the sequential model: interleaving is covered by the ledger system, whose safety needs no lock.
- The content of an event besides its contest (summary, times, reminders): a copy of the contest's fields.
- Cancelling by the user between two runs and Google's own expiry of cancelled events, for the second-run theorem: nothing changes between the two runs there.
- The in-memory queue: channels with a bounded buffer and no acknowledgement, so no delivery guarantee to state.
- The consumer semaphore: it is rebuilt on each restart, so it bounds concurrency per incarnation only.
- Telegram.SplitMessage: asks for a limit of at least 1 or a text that fits, because on a longer text the loop of the source does not end with a limit of 0 and panics with a negative one.
- ICalFeed.FeedRoundTrip: recovers text fields without their CRs, because the escape drops them; folding of long lines is not modelled, because the source does not do it.
- The limiter shared by routes with different limits: the counting bound needs one fixed pair of limit and window.
- The Valkey-backed rate limit: a counter in another process.
- HTTP routing, sessions, CSRF, captcha, OAuth exchange, AES-GCM, MD5 and JSON: library code.
- The other fetchers, `sendChunk`, paging in `SyncAllUsers`, the replica round robin, backoff and OAuth state cleanup: easy and independent of the rest.
- AtCoderRows.PrintedRowIsScanned: seconds are unbounded integers; a duration of over 292 years, which would wrap in the source, is not modelled.
- Date parsing and formatting, UTF-8 validity, telemetry, configuration and the frontend.
