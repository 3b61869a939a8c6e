# A Dafny model of the Congee Nostr relay

Congee is a Nostr relay: it stores signed events in SQL tables, answers subscriptions (`REQ`) from history and
then live, syncs sets of events (NIP-77), manages groups (NIP-29), and passes traffic to plugins. This project
states what its stateful parts do and proves what they keep, over every input, every run and every interleaving
of their atomic sections. `dafny verify dfyconfig.toml` verifies all of it.

| part | modules | what it is about |
|---|---|---|
| shared | `Base`, `Runs` | sequences and sorting; runs of a step machine |
| events and filters | `Nostr` | events, kinds, filters and `Matches`, the orders queries sort by |
| the store | `EventTables`, `EventHistory`, `EventQuery`, `SqlStore`, `CountQuery`, `SchemaLadder` | three SQL tables as the image of one log of events; queries and counts over them; the schema upgrade ladder |
| copying a store | `Migration` | the keyset scan and the copy it feeds |
| paging a `REQ` | `Paging`, `ReqQuery`, `ReqPager`, `ReqSnapshot` | cursors, budgets and merging against the one-shot query |
| delivering a subscription | `Subscriptions`, `Delivery`, `DeliveryOrder`, `DeliveryRuns`, `DeliveryExact`, `DeliveryClosed`, `DeliverySeen`, `DeliverySnapshot`, `DeliveryLaws` | the subscription table, and one subscription under every interleaving of read loop, worker, broadcasts and a changing store: the order of its frames, the exact rules for it, what follows CLOSED, what was checked before each send, what EOSE says of the snapshot, and what each exchange does when nothing comes in between |
| sync sessions | `NegSessions`, `NegAccounting`, `NegLaws`, `NegRuns`, `NegExact` | the session map, what opens and ends a session, the global session counter, and the exact rules for it |
| the writer | `Writer`, `WriterRuns` | one task with retry, timeout and panic; callers, queue, store and shutdown |
| groups | `Membership`, `Nip29`, `Nip29Runs`, `Visibility` | who is a member, which of several concurrent requests are accepted, who may read |
| limits and metrics | `Limiter`, `ConnSlots`, `LatencyRing` | sliding windows, open-connection slots, the latency ring |
| plugins | `PluginFilters` | filters to the plugin and back |

Code that changes state in place is a class with methods proved against specification functions; protocols are
state machines whose steps are the mutex sections, channel operations and sends of the source. Clocks, I/O
failures, panics, full queues and the answers of foreign code are inputs.

## What holds only under a condition

Several properties one would expect do not hold of the code as it is. The code is kept; each has the condition
under which it does hold and a run or input that shows why.

- **Replacement ignores `created_at`.** A replaceable slot is a last-write-wins register (`EventHistory.RegisterIsLastWrite`);
  it keeps the newest event exactly when saves into it never go back in time (`NewestKeptIffSavesAscend`). NIP-01 asks for the
  newest. A copy between stores loses no newer event exactly when no incoming event is older than the one in its slot
  (`Migration.CopyLosesNoNewerIff`, `CopyCanLoseNewer`).
- **Tag conditions.** SQL and `Matches` agree on a filter exactly when no event can meet it, or each tag condition is covered by
  one that the other side reads under the same name, and in SQL without an empty value (`EventQuery.SqlAgreesWithMatchesIff`): a
  tag without a value is indexed as `''`. With the keys parsing keeps that leaves only the empty value (`HashedCoveredIff`). A
  plugin's filters are not parsed: under a key without `#` SQL looks for another tag than `Matches` (`BareKeySplits`), and an empty
  key with values panics in every query.
- **Paging skips ties.** A full page moves `until` below its last timestamp; what is skipped is exactly what is tied with and
  ordered after such a row (`Paging.PageOutExactly`), so pages of one size are complete exactly when none of their boundaries
  splits a tie (`PagingIsOneShotAt`). At the smallest int64 timestamp `oldest - 1` wraps and paging never ends
  (`ReqQuery.UnlimitedPagingEndsIff`).
- **Order of a subscription's frames** needs at each `REQ` that the worker is about to remove the entry, or that no queued job of
  that sub id is stamped with the same second and the worker is outside such a job; otherwise some continuation breaks it
  (`DeliveryExact.ReqKeepsOrderIff`, `SameSecondBreaksOrder`, `ReplacedInsideJobBreaksOrder`). Live events keep broadcast order
  exactly if no broadcast is sent at once while a flush has events left (`BroadcastKeepsOrderIff`, `BroadcastOvertakesFlush`), and
  the counters are right exactly if no `REQ` comes between a flushed send and its count (`ReqKeepsBooksIff`).
- **CLOSED is the last frame** until the next accepted `REQ`, in every run and whatever sends it, exactly when it comes from no
  drain and the thread that sends it was the only one with anything left to send: the other thread is quiet, no buffer is about
  to be taken, the entry takes no broadcasts at once, and no job passes for the entry's (`DeliveryClosed.ClosedIsLastIff`). If every
  `REQ` obeyed the rule for the order above, a failed page meets that unless it is a drain's, and the CLOSED of a client's
  CLOSE, of a refused `REQ` and of a teardown exactly when the subscription had nothing left to send (`RuledClosedIsLastIff`).
  Further frames follow a query error in a drain (EOSE, `DrainErrorSpeaks`), a CLOSE while the worker is inside the job or
  before a live entry is marked (`CloseDuringJobSpeaks`, `CloseWhileLiveSpeaks`), a refused `REQ` for the sub id of a live subscription,
  whose entry stays (`RefusedReqSpeaks`), a teardown while the worker is inside the job (`TeardownDuringJobSpeaks`), and, outside
  that rule, a failed first page beside an older job of the same second (`FirstPageFailsBesideJobSpeaks`). Under the rule a failed
  first page, or an EOSE refused in the read loop or the worker, leaves an entry that buffers for nobody until the next
  `REQ` (`FailureMutes`).
- **The NIP-77 counter** passes the maximum by up to the number of overlapping opens less one, so it keeps to it exactly if no two
  overlap (`NegRuns.MaximumIsPassed`, `MaximumHoldsIff`). It equals what is held exactly as long as no sub id is reopened while its
  own open is queued or running, no job stores and no idle timer removes a session between a teardown's count and its clear
  (`NegExact.CounterStaysExactIff`): the first two leak a slot, the last releases one twice. In runs otherwise so it can go below
  zero exactly by such a timer (`CounterStaysNonnegativeIff`); and whatever else happened, the first such timer takes it below what
  is held exactly if it finds the counter exact and the teardown's count still right (`CounterStaysCoveringIff`). Runs:
  `NegRuns.ReopenLeaksAndRemovesNewer`, `StoreInTeardownLeaks`, `NegAccounting.TeardownRaceGoesNegative`. `handleNEGMsg` removes a
  finished session by sub id, so after such a reopening it removes a newer one.
- **The maximum of open connections** is checked long before the connection is counted: n at once pass it by n - 1, and it holds
  exactly if no two are in between (`ConnSlots.MaxOpenIsPassed`, `MaxOpenHoldsIff`).
- **The writer's errors.** An error means that nothing was stored exactly when it is neither the deadline nor "store closed"
  (`WriterRuns.MeansNotStoredIff`): the caller of a late task is answered while its closure may still commit
  (`DeadlineButStored`, `DeadlineAndNotStored`), and a task answered nil may be reported as closed (`ExecutedButReportedClosed`).
  At shutdown a caller that passed the test may still win the send after the drain and then waits for ever
  (`AnsweredIffSentInTime`, `LateSendIsStranded`).
- **Group membership** ignores a put-user or remove-user event of the same second unless its id sorts first
  (`Membership.PutTakesEffectIff`, `RemoveTakesEffectIff`). Joins and leaves of a user alternate exactly as long as no request is
  judged while another of the same user and group is pending (`Nip29Runs.ValidationSafeIff`, `RacingJoinsBothAccepted`), none is
  saved although its save was answered with an error, which leaves it without follow-up (`StoreSafeIff`, `UnansweredJoinIsRepeated`),
  and the relay's own event takes effect (`FollowSafeIff`). With NIP-17 enabled a gift wrap bearing a private group's `h` tag follows the
  recipient rule alone (`Visibility.EventVisible`).
- **Upgrading from schema version 1** backfills the full-text table before it stores a version; a run interrupted in between
  backfills again, and every row is doubled (`SchemaLadder.MirrorAfterUpgradeIff`, `InterruptedBackfillDoubles`). A fresh database
  is put at version 7 without the tag indexes that an upgrade to version 5 creates (`SchemaLadder.PlanDone`).
- **EOSE means a complete snapshot** under the order rule above, unless a query of the drain failed
  (`DeliverySnapshot.EoseMeansComplete`): then EOSE comes after CLOSED all the same (`DeliveryClosed.DrainErrorSpeaks`).
- **Plugin filters** mean the same to every event after the trip exactly when their kinds fit in 32 bits or they accept nothing
  (`PluginFilters.MeaningSurvivesIff`, `WideKindChangesMeaning`); a limit survives exactly when it fits.

Where the code and its documentation differ the model follows the code. `internal/storage/models.go:17` says `d_tag` is empty for
kinds that are not addressable, but `SaveEvent` stores the first `d` tag for every kind
(`internal/storage/sqlevent/store.go:89`). `internal/storage/migrator.go:12` says that a migration verifies row deltas against the
destination's counts at the start; those counts are read and logged, and nothing is compared.

## Model

| member | source | states |
|---|---|---|
| `Nostr.EventTagMatches` | internal/nostr/filter.go:205-225 | true exactly when some tag has the name and a wanted value |
| `Nostr.Matches` | internal/nostr/filter.go:143-203 | the early-return code accepts exactly the events that meet every condition the filter sets, and none while a search is active |
| `Nostr.ExtractedIsFirstD` | internal/storage/sqlevent/store.go:47-58 | the extracted value is the second element of the first tag named "d", by its index, or empty |
| `Nostr.GroupIsFirstH` | internal/nostr/nip29.go:20-30 | the group is the value of the first "h" tag that has one, by its index, or none |
| `Nostr.NewerByNumbers` | internal/storage/sqlevent/store.go:254-259 | the order of a query is: later second, then the id whose first differing byte is smaller or that ends first |
| `Nostr.TrimSpaceCutsSpaces` | internal/nostr/filter.go:31-36 | trimming cuts a run of space off either end, and what is left neither begins nor ends with space |
| `Base.StrLessIsBytewise` | internal/storage/sqlevent/store.go:254-259 | the recursive comparison is: equal up to a place where the first string ends or has the smaller byte |
| `Base.LowerFolds` | internal/relay/nip17.go:128-135 | two texts have one lower case exactly if they are equal up to the case of their ASCII letters |
| `EventTables.Store.BuildTagRows` | internal/storage/sqlevent/store.go:94-115 | one row per tag in order, bare tags with an empty value |
| `EventTables.Store.SaveTransaction` | internal/storage/sqlevent/store.go:65-123 | which statement fails is an input: the closure commits exactly if none that it needs fails and no other event has the id, and otherwise changes no table; the tables become those of the log in which kinds 0, 3 and 10000 to 19999 replace by pubkey and kind, kinds 30000 to 39999 by pubkey, kind and first "d" value, and any other kind is added |
| `EventTables.Store.SaveEvent` | internal/storage/sqlevent/store.go:60-129 | through the writer: success means stored, with the replacement by kind number; any error but the deadline and the closed store means nothing changed; exactly kinds 20000 to 29999 are refused; and without a fault a save succeeds exactly if no other event has its id |
| `EventTables.Store.DeleteTransaction` | internal/storage/sqlevent/store.go:298-306 | the closure of a deletion removes exactly the event with that id, its tag rows and its full-text row together; it fails only when a statement fails, and then changes nothing |
| `EventTables.DeleteCommutes` | internal/storage/sqlevent/migrations.go:95-102 | deleting rows with cascade and trigger is deleting those events from the log |
| `EventTables.InsertCommutes` | internal/storage/sqlevent/migrations.go:259-285 | inserting a row with its trigger and tag rows is appending the event to the log |
| `EventTables.SlotDelete` | internal/storage/sqlevent/store.go:66-80 | the DELETE chosen by kind class removes exactly the event's replaceable or addressable slot |
| `EventTables.SavedIsByNumbers` | internal/nostr/kinds.go:15-29 | which events a save removes, by kind numbers and by the position of the first "d" tag alone |
| `EventTables.OneOfAKind` | internal/storage/sqlevent/store.go:66-80 | of two stored events neither is of a kind that would replace the other: the same by numbers, for every well kept log |
| `EventTables.SavedWellKept` | internal/storage/sqlevent/store.go:65-123 | a committed save keeps one row per id, one per slot and none ephemeral |
| `EventHistory.Run` | internal/storage/sqlevent/store.go:65-123 | any run of save and delete transactions on the tables is a run on the log, and each operation is committed exactly if no statement that it needs fails and no other event has its id |
| `EventHistory.RunsStayWellKept` | internal/storage/sqlevent/store.go:65-123 | over any run, one row per id and per slot, nothing ephemeral |
| `EventHistory.IndexesMirrorLog` | internal/storage/sqlevent/migrations.go:259-285 | each stored event has exactly its own tag rows in order and one full-text row with its content |
| `EventHistory.NoRowsForAbsent` | internal/storage/sqlevent/migrations.go:95-102 | an id that is not stored has no tag row and no full-text row |
| `EventHistory.RebuildIsIdentity` | internal/storage/sqlevent/store.go:131-175 | an event read back from the tables is the event that was saved |
| `EventHistory.GroupTagRows` | internal/storage/tag_batch.go:5-15 | each event gets its own tags in row order, and only events with tags get an entry |
| `EventHistory.SlotIsRegister` | internal/storage/sqlevent/store.go:66-80 | over any run each slot behaves as one register written by saves and cleared by deletes |
| `EventHistory.RegisterIsLastWrite` | internal/storage/sqlevent/store.go:66-80 | without deletes a slot holds the last event saved to it |
| `EventHistory.NewestKeptIffSavesAscend` | internal/storage/sqlevent/store.go:66-80 | over any run of saves a slot holds, after every number of them, an event no earlier content of it beats, if and only if no committed save into it is beaten by the event it replaces; the first content counts |
| `EventHistory.OlderSaveReplacesNewer` | internal/storage/sqlevent/store.go:66-80 | an older event replaces a newer one |
| `EventQuery.ApplyFilterQuery` | internal/storage/sqlevent/store.go:177-215 | for every filter it does not panic on, the conditions built hold of a row exactly when the row meets the filter, tag names being the keys without their first character |
| `EventQuery.RowMatchesOwnTags` | internal/storage/sqlevent/store.go:183-215 | over the tables of a log the tag subqueries look at the event's own tags only |
| `EventQuery.SqlAgreesWithMatchesIff` | internal/storage/sqlevent/store.go:183-231 | for every filter, whatever its keys, the SQL translation and Matches agree on every event if and only if no event can meet the filter or each tag condition is covered by one the other side reads under the same name, with no empty value on the SQL side |
| `EventQuery.HashedCoveredIff` | internal/storage/sqlevent/store.go:183-215 | when all keys begin with `#` that is exactly: no condition asks for an empty tag value |
| `EventQuery.SqlOnly` | internal/nostr/filter.go:191-225 | where no condition covers a key in SQL, an event SQL returns and Matches rejects, for example one with a bare tag |
| `EventQuery.MatchOnly` | internal/nostr/filter.go:191-225 | where none covers it in Matches, an event Matches accepts and SQL does not return |
| `EventQuery.BareKeySplits` | internal/plugin/convert.go:62-71 | a key that a plugin left without `#`: SQL looks for the tag `bc` and Matches for `abc` |
| `EventQuery.QuerySorted` | internal/storage/sqlevent/store.go:235-270 | a query's result is strictly newest first and holds exactly the events in some filter's limited result |
| `EventQuery.QueryDeterminedByMembers` | internal/storage/sqlevent/store.go:235-270 | those two facts determine the result |
| `EventQuery.QueryIsUnion` | internal/storage/sqlevent/store.go:235-270 | without limits the result is the union over the filters |
| `EventQuery.QueryByNumbers` | internal/storage/sqlevent/store.go:217-270 | an event is returned exactly if it is stored and some search-free filter accepts it and, where that filter has a positive limit, fewer other accepted events than that come before it |
| `EventQuery.HistoryAgreesWithLive` | internal/relay/subscription.go:154-161 | for filters that meet that condition and have no limit, a stored event is returned exactly when live fan-out would accept it |
| `SqlStore.SelectRows` | internal/storage/sqlevent/store.go:217-233 | one filter's SELECT over the tables returns the rows of that filter's newest events, up to its limit |
| `SqlStore.GroupedTagsAreOwn` | internal/storage/sqlevent/store.go:147-159 | tags fetched for many ids at once and grouped are each event's own tags |
| `SqlStore.QueryEvents` | internal/storage/sqlevent/store.go:235-270 | the map of rows, the batched tags and the final sort give exactly the specified query |
| `CountQuery.CountFilterSubQuery` | internal/storage/count_filter.go:13-96 | the SQL text and its positional arguments line up and mean the filter; a search filter is skipped |
| `CountQuery.BuildUnion` | internal/storage/sqlevent/store.go:309-340 | the union's argument list matches its placeholders and it accepts a row exactly when some filter does |
| `CountQuery.CountEvents` | internal/storage/sqlevent/store.go:309-340 | counts the distinct ids some filter accepts; all rows for no filter |
| `CountQuery.CountIsQueryLength` | internal/storage/sqlevent/store.go:309-340 | that number is the length of the query's result on the same filters without limits |
| `SchemaLadder.Database.ExecStatements` | internal/storage/sqlevent/migrations.go:106-121 | statements take effect in order until one fails |
| `SchemaLadder.Database.RunMigrations` | internal/storage/sqlevent/migrations.go:21-79 | a failed run has executed a beginning of the plan for the stored version; a successful one ends at version 7 with the tables, columns, triggers and full-text rows stated outright; it succeeds when enough calls do; an unknown version is left alone |
| `SchemaLadder.PlanDone` | internal/storage/sqlevent/migrations.go:81-245 | from every version the plan leaves exactly that schema: triggers for a fresh database and from version 1, one backfill from version 1, tag indexes only by upgrade, and none of the dropped tables |
| `SchemaLadder.RowsAreCopies` | internal/storage/sqlevent/migrations.go:123-134 | however runs are interrupted, the full-text table gains one copy of all events per run that passed the backfill |
| `SchemaLadder.MirrorAfterUpgradeIff` | internal/storage/sqlevent/migrations.go:123-134 | after an upgrade from version 1 the full-text table mirrors the events if and only if exactly one run passed the backfill or there are none |
| `SchemaLadder.InterruptedBackfillDoubles` | internal/storage/sqlevent/migrations.go:123-161 | stopped after the backfill and then completed, the upgrade doubles every row |
| `Migration.SelectPage` | internal/storage/sqlevent/migration.go:36-50 | the keyset condition, order and limit select the next rows after the cursor |
| `Migration.PageIsNextRun` | internal/storage/sqlevent/migration.go:33-64 | the page after the k-th event is the next run of the scan order, equal timestamps included |
| `Migration.ScanEvents` | internal/storage/sqlevent/migration.go:33-64 | for every page size the scan ends and visits each event once in strict created_at and id order |
| `Migration.Copier.CopyEvent` | internal/storage/migrator.go:55-81 | one callback skips a present id and saves and counts any other, keeping the running totals, and succeeds when no store call fails |
| `Migration.RowCounts` | internal/storage/sqlevent/migration.go:14-30 | the counts are the number of events and of all their tags: the subquery excludes no tag row |
| `Migration.CopiedAllIsResult` | internal/storage/migrator.go:55-81 | a complete scan leaves the new source events plus the old destination events whose slot no new one took |
| `Migration.CopyKeepsSource` | internal/storage/migrator.go:55-81 | every source event is then in the destination, which needs the source's one row per slot |
| `Migration.Migrate` | internal/storage/migrator.go:16-103 | it succeeds when no store call fails, and then meets that result: inserted plus skipped is the source count, and the event and tag totals of the source, of what was inserted and of the final destination are exact |
| `Migration.CopyLosesNoNewerIff` | internal/storage/migrator.go:55-81 | no destination event gives way to an older one if and only if no incoming source event is older than the destination event in its slot |
| `Migration.CopyCanLoseNewer` | internal/storage/migrator.go:55-81 | stores in which a newer destination event is lost to an older source event |
| `Paging.PageOutExactly` | internal/relay/req_query.go:145-216 | a row is delivered exactly when it is neither tied with and ordered after the end of a full page nor beyond the budget |
| `Paging.PageOutMembers` | internal/relay/req_query.go:145-216 | only rows of the result are delivered, at most the budget |
| `Paging.PageOutSorted` | internal/relay/req_query.go:145-216 | pages together are strictly newest first, so nothing is delivered twice |
| `Paging.DistinctStampsPageAll` | internal/relay/req_query.go:145-216 | without equal neighbouring timestamps paging delivers the one-shot result |
| `Paging.PagingIsOneShotAt` | internal/relay/req_query.go:113-216 | for each page size, paging equals the one-shot result if and only if no page boundary of that result lies between two rows with the same timestamp |
| `Paging.PagingIsOneShotIff` | internal/relay/req_query.go:113-216 | paging equals the one-shot result for every page size if and only if no two neighbours of it share a timestamp |
| `ReqQuery.AdvanceTakesPage` | internal/relay/req_query.go:167-207 | one page takes the next page off what the cursor can see and leaves the older rest and the smaller budget |
| `ReqQuery.DeliversUnfolds` | internal/relay/req_query.go:167-207 | what a cursor delivers is its page followed by what the advanced cursor delivers, and the rest shrinks |
| `ReqQuery.UnlimitedPagingEndsIff` | internal/relay/req_query.go:190-200 | without a limit paging ends for every page size if and only if no matching event has the smallest int64 timestamp |
| `ReqQuery.LimitedPagingEnds` | internal/relay/req_query.go:190-207 | with a positive limit it always ends |
| `ReqPager.ApplyDefaultQueryLimit` | internal/relay/req_query.go:15-33 | a default limit is set on exactly the filters without one when it is positive |
| `ReqPager.MergePageEvents` | internal/relay/req_query.go:81-111 | fresh search hits in relevance order, then the rest newest first, none sent before |
| `ReqPager.MergedIds` | internal/relay/req_query.go:81-111 | a merged page holds each gathered event not sent before exactly once |
| `ReqPager.ReqQueryState.constructor` | internal/relay/req_query.go:54-79 | filters split into cursors and searches with budgets from their limits |
| `ReqPager.ReqQueryState.FetchPage` | internal/relay/req_query.go:145-216 | every live cursor advances one page; searches run on the first page only, whose hits lead it in the order of the filters and of each ranking, each at its first occurrence; nothing is sent twice; hasMore says whether a cursor is left; it fails exactly if a query that it needs fails |
| `ReqPager.ReqQueryState.FetchAll` | internal/relay/req_query.go:113-143 | the one-shot form sends what some ranking holds or some filter's whole limited result does, rankings first, and exhausts every cursor; it fails exactly if a query fails |
| `ReqPager.HitsAreRanked` | internal/relay/req_query.go:156-168 | an event is a hit exactly if the store ranks it for the text of some search filter |
| `ReqPager.HitsInRankOrder` | internal/relay/req_query.go:156-168 | the hits are the rankings one after the other, filter by filter |
| `ReqPager.FreshAreFirst` | internal/relay/req_query.go:86-96 | the leading hits are, in order, those at exactly the places where an id not sent before occurs first |
| `ReqSnapshot.PageThenRest` | internal/relay/req_query.go:145-216 | one page over all filters sends its part and leaves exactly the rest to be sent |
| `ReqSnapshot.DrainPages` | internal/relay/readqueue.go:157-189 | when no query fails, paging until hasMore is false ends and sends every event some ranking holds or some cursor delivers, and no other, each once, the rankings' first occurrences leading; its result is the pages one after the other |
| `ReqSnapshot.CompletePages` | internal/relay/req_query.go:145-216 | any pages that are each the merge of the hits and the cursors' pages, and the last of which says that there is no more, hold exactly what is to be sent, each event once |
| `ReqSnapshot.PagedSnapshotExactly` | internal/relay/req_query.go:113-216 | a paged snapshot sends the search hits and, per filter, all but the skipped ties and what exceeds the limit |
| `ReqSnapshot.PagedWithinLimit` | internal/relay/req_query.go:145-216 | each filter delivers only stored events it accepts, at most its limit |
| `ReqSnapshot.PagedEqualsOneShot` | internal/relay/req_query.go:113-216 | without equal neighbouring timestamps the paged snapshot is the one-shot set |
| `Subscriptions.SubscriptionManager.Add` | internal/relay/subscription.go:96-120 | the three refusals in order, replacement whatever the limit, no other entry touched, no connection above its maximum |
| `Subscriptions.SubscriptionManager.Remove` | internal/relay/subscription.go:123-140 | the entry is gone, no other is touched, no empty connection map stays |
| `Subscriptions.SubscriptionManager.UnregisterSender` | internal/relay/subscription.go:79-93 | the connection loses sender and entries, and each sub id is returned once |
| `Subscriptions.SubscriptionManager.Broadcast` | internal/relay/subscription.go:165-210 | each open matching entry of a visible connection with a sender is reached exactly once, and no other entry changes |
| `Subscriptions.SubscriptionManager.FinishSnapshot` | internal/relay/subscription.go:290-337 | the buffer is emptied with one send per event in order, and accepted and refused sends are counted exactly |
| `Subscriptions.FiltersMatch` | internal/relay/subscription.go:154-161 | true exactly when some filter accepts the event |
| `DeliverySeen.StoredEventWasSeen` | internal/relay/readqueue.go:118-129 | in every run, a stored event is sent by a thread whose own earlier check, at a moment named, found that event visible and which did nothing in between; in a group private at that moment some pubkey authenticated on the connection was a member |
| `DeliverySeen.OneCheckOneSend` | internal/relay/readqueue.go:118-122 | no check serves two sends |
| `DeliverySeen.LiveEventWasSeen` | internal/relay/subscription.go:165-210 | in every run, a live event was found visible by the broadcast that offered it, sent at once or buffered; the same of private groups |
| `DeliverySnapshot.EoseMeansComplete` | internal/relay/readqueue.go:88-189 | an observer notes the pages fetched and what became of each event: in every run under the order rule, when EOSE is sent, the last page fetched since the REQ said that there is no more or a query of the drain failed, all events of all those pages were sent, found invisible or refused by a full queue, in page order, and the stored events the client got since the REQ are exactly those sent |
| `DeliverySnapshot.EoseMeansSnapshot` | internal/relay/req_query.go:113-216 | when those pages are the ones FetchPage makes of an unchanging store, the events sent, invisible or refused are exactly the search hits and each filter's rows that paging does not skip, each once |
| `DeliverySnapshot.SnapshotGoesOn` | internal/relay/readqueue.go:88-144 | until it ends in one of the ways listed or a further REQ is accepted, some thread or queued job goes on with the snapshot |
| `DeliveryLaws.CloseEndsSubscription` | internal/relay/nip01.go:271-276 | after CLOSE the entry is first out of use and then gone, and one CLOSED was sent |
| `DeliveryLaws.JobGoesOnIff` | internal/relay/subscription.go:228-243 | in every state runs can reach, a job goes on exactly if there is an open entry with its stamp |
| `DeliveryLaws.PageTurns` | internal/relay/readqueue.go:132-137 | EOSE follows a page that says there is no more; after any other page the same job is queued again, or its thread drains |
| `DeliveryLaws.WorkerPageFails` | internal/relay/readqueue.go:109-116 | a failed page of the worker sends CLOSED, removes the entry, and sends nothing more |
| `DeliveryLaws.DrainFails` | internal/relay/readqueue.go:156-173 | a failed drain sends CLOSED, removes the entry, and comes to EOSE |
| `DeliveryLaws.EoseStartsFlush` | internal/relay/nip01.go:263-268 | after EOSE the entry is live with an empty buffer, and the buffered events are next, in order |
| `DeliveryLaws.FlushCountsOne` | internal/relay/subscription.go:308-337 | each buffered event is sent or refused, and counted once accordingly |
| `DeliveryLaws.BroadcastReaches` | internal/relay/subscription.go:165-210 | a visible event that the filters accept is sent and counted, or buffered while fewer than 256 wait, or lost with the overflow flag |
| `DeliveryLaws.TeardownEndsSubscription` | internal/relay/relay.go:425-429 | a teardown drops entry and sender and sends CLOSED exactly if there was an entry |
| `DeliveryRuns.StepKeeps` | internal/relay/readqueue.go:88-189 | every step under the rule keeps: at most one thread or job at work on the subscription, the phase it relies on, and the books |
| `DeliveryRuns.SnapshotThenEoseThenLive` | internal/relay/nip01.go:147-268 | since each REQ the client sees stored events, one EOSE, then live events, in every interleaving under the rule; in broadcast order under the stronger rule |
| `DeliveryRuns.OfferedIsAccounted` | internal/relay/subscription.go:192-207 | offered events equal sent, refused, waiting, in flight and lost; at most 256 wait; overflow is set exactly when something was lost |
| `DeliveryRuns.BufferedInBroadcastOrder` | internal/relay/subscription.go:290-337 | the buffer and what is left of a flush are runs of the offered events in broadcast order |
| `DeliveryExact.ReqKeepsOrderIff` | internal/relay/subscription.go:228-243 | in every state reached under the rule, with an idle read loop, all continuations of the next REQ under it keep the order if and only if the worker is about to remove the entry, or no queued job bears the current second and the worker is outside such jobs |
| `DeliveryExact.BroadcastKeepsOrderIff` | internal/relay/subscription.go:200-207 | in every state reached under the rule, a broadcast leaves live events in broadcast order in all continuations under it if and only if it is not sent at once while a flush has events left |
| `DeliveryExact.ReqKeepsBooksIff` | internal/relay/subscription.go:316-336 | in every state reached under the rule, of the REQs that keep the order exactly those keep the counters right in all continuations under it that find no flushed send uncounted |
| `DeliveryExact.SameSecondBreaksOrder` | internal/relay/subscription.go:228-243 | a state reached under the rule: replaced within the second of its own queued job |
| `DeliveryExact.ReplacedInsideJobBreaksOrder` | internal/relay/readqueue.go:88-144 | a state reached under the rule: replaced in any second while the worker is inside the old job |
| `DeliveryExact.BroadcastOvertakesFlush` | internal/relay/subscription.go:308-337 | a state reached under the rule: a broadcast is sent ahead of an older buffered event |
| `DeliveryClosed.OnlyClosedFollowsIff` | internal/relay/readqueue.go:88-189 | from any state a run can reach, the client gets nothing but CLOSED until the next accepted REQ if and only if the state is mute: both threads quiet, no live or finishing entry a broadcast could be meant for, no buffer to flush and no job that passes for the entry's |
| `DeliveryClosed.ClosedIsLastIff` | internal/relay/handler.go:391-397 | in every run, without any rule, and for every CLOSED, of a failed page, a drain, a client's CLOSE, a refused REQ or a teardown: no other frame follows it until the next accepted REQ if and only if it comes from no drain and the state is mute but for the thread that sends it |
| `DeliveryClosed.RuledClosedIsLastIff` | internal/relay/nip01.go:132-274 | in every state reached by runs whose REQs obey the rule for the order: a failed page's CLOSED is the last frame if and only if it comes from no drain, any other CLOSED if and only if it finds the state mute |
| `DeliveryClosed.NothingFollowsClosed` | internal/relay/readqueue.go:146-189 | in every run, without any rule for its REQs, whose CLOSED frames are sent from such states, no other frame ever follows one until the next accepted REQ |
| `DeliveryClosed.FailureMutes` | internal/relay/readqueue.go:109-144 | in every state reached under the rule, a failed first page, a failed page of the worker, and an EOSE refused in the read loop or the worker leave the entry as it was and the state mute |
| `DeliveryClosed.DrainErrorSpeaks` | internal/relay/readqueue.go:156-173 | a reachable state: a query error while draining sends CLOSED and then EOSE |
| `DeliveryClosed.CloseDuringJobSpeaks` | internal/relay/nip01.go:271-274 | a reachable state: CLOSE while the worker is inside the job, which goes on after CLOSED |
| `DeliveryClosed.CloseWhileLiveSpeaks` | internal/relay/nip01.go:271-274 | a reachable state: CLOSE of a live subscription, which a broadcast still reaches before the entry is marked |
| `DeliveryClosed.RefusedReqSpeaks` | internal/relay/nip01.go:132-200 | a reachable state: a REQ for the sub id of a live subscription is answered with CLOSED, its entry stays, and live events follow |
| `DeliveryClosed.TeardownDuringJobSpeaks` | internal/relay/relay.go:425-429 | a reachable state: teardown sends CLOSED while the worker is inside the job, which goes on |
| `DeliveryClosed.FirstPageFailsBesideJobSpeaks` | internal/relay/nip01.go:210-230 | a reachable state, outside the rule: the first page of a REQ fails, and the queued job of an older one of the same second goes on after CLOSED |
| `NegAccounting.CounterIsAccounted` | internal/relay/nip77.go:104-329 | in every interleaving the counter is sessions, queued and running jobs and releases due, plus what replacement leaked and teardown miscounted |
| `NegAccounting.CounterCoversHolders` | internal/relay/relay.go:417-422 | if no idle timer removes a session inside a teardown the counter covers every session and job, so it is never negative |
| `NegAccounting.TeardownRaceGoesNegative` | internal/relay/relay.go:417-422 | a run: such a timer takes the counter to minus one |
| `NegLaws.EndingEndsSession` | internal/relay/nip77.go:245-329 | NEG-CLOSE, a finished or failed sync, a new open of the sub id, and the timer of a live session end the session at once and no other; the release after that gives back one slot exactly if there was a session |
| `NegLaws.NoSessionUntilStored` | internal/relay/nip77.go:142-243 | from then on the connection has no session of the sub id until the worker stores one |
| `NegLaws.TeardownGivesBackAll` | internal/relay/relay.go:417-422 | an undisturbed teardown ends all sessions and gives back as many slots |
| `NegLaws.OpenBecomesSession` | internal/relay/nip77.go:104-243 | from every state with room, an open of an idle connection leads to a session of its own, whatever is queued before it; with nothing else queued it takes one slot, or keeps that of the session it replaces |
| `NegRuns.MaximumUpToOverlap` | internal/relay/nip77.go:116-134 | with at most n opens between check and reservation the counter stays within the maximum plus n minus one |
| `NegRuns.MaximumIsPassed` | internal/relay/nip77.go:116-134 | for every maximum and every n from one on, n overlapping opens do reach the maximum plus n minus one |
| `NegRuns.MaximumHoldsIff` | internal/relay/nip77.go:116-134 | the counter never passes the maximum if and only if no two opens overlap |
| `NegRuns.CounterIsExact` | internal/relay/nip77.go:142-329 | if no sub id is reopened while its own open is pending and teardowns are undisturbed, the counter is exactly its holders and a finished sync removes its own session |
| `NegRuns.ReopenLeaksAndRemovesNewer` | internal/relay/nip77.go:302-312 | a run: otherwise a slot leaks and a finished sync removes a newer session |
| `NegRuns.StoreInTeardownLeaks` | internal/relay/relay.go:417-422 | a run: a job that stores between a teardown's count and its clear leaves the counter at one with nothing left to release it |
| `NegExact.CounterStaysExactIff` | internal/relay/nip77.go:104-329 | in every state reached under the tidy rule, the counter equals its holders after a step and in all continuations under the rule if and only if the step reopens no pending sub id and no store or timer changes a connection's sessions between its teardown's count and its clear, or the step changes nothing |
| `NegExact.CounterStaysCoveringIff` | internal/relay/relay.go:417-422 | in every state reached without such a timer, the counter stays at or above its holders in all continuations without one if and only if the step is no such timer, or one that finds the counter above its holders or more sessions than were counted |
| `NegExact.CounterStaysNonnegativeIff` | internal/relay/relay.go:417-422 | in every state reached under the tidy rule, the counter never goes below zero after a step, in all continuations under the rule, if and only if the step is no idle timer that removes a session between a teardown's count and its clear |
| `NegRuns.StaleNeverTouchesNewer` | internal/relay/nip77.go:255-292 | once a session is gone its idle timer and its failing message change neither sessions nor counter, in every later state |
| `Writer.StringsContains` | internal/storage/sqlitewriter/writer.go:473-477 | true exactly when the needle occurs |
| `Writer.IsReconnectable` | internal/storage/sqlitewriter/writer.go:452-479 | true exactly for an error that is no deadline and contains one of the listed texts in any case |
| `Writer.Queue.Reconnect` | internal/storage/sqlitewriter/writer.go:420-450 | handles are closed before any is opened, and a failed or panicking opener leaves none |
| `Writer.Queue.RunTaskOnce` | internal/storage/sqlitewriter/writer.go:336-405 | one run at most, answered with the deadline when late, no handle touched while it is in flight, and after a late run the handles closed and reopened, present exactly if the opener succeeded |
| `Writer.Queue.ExecuteTask` | internal/storage/sqlitewriter/writer.go:253-334 | judged by a monitor, whatever the closure, the ping and the opener do, panics included: one answer, at most two runs, a second only after a reconnectable error and a reopen, none in flight while handles change, nil only for a nil last run, no giving up without cause, no end while handles used by a timed-out run are still open, and handles afterwards exactly as the last reopening left them |
| `WriterRuns.ExecutedInOrder` | internal/storage/sqlitewriter/writer.go:219-251 | in every interleaving tasks execute in the order they were sent, each once, and handles are closed only after the loop is gone |
| `WriterRuns.StoreIsStoredTasks` | internal/storage/sqlitewriter/writer.go:219-251 | in every interleaving the store is its first log with every task applied whose closure returned nil, each once, in the order they were sent |
| `WriterRuns.TakenIffAnswered` | internal/storage/sqlitewriter/writer.go:219-251 | each dequeued or drained task but the one in progress has an answer, and no other has |
| `WriterRuns.AnswersAreFinal` | internal/storage/sqlitewriter/writer.go:266-272 | an answer never changes |
| `WriterRuns.WhatAnAnswerMeans` | internal/storage/sqlitewriter/writer.go:119-179 | once its task is over, a caller that got nil has it stored; one that got an error has it not, if and only if it was neither answered with the deadline and then committed nor answered nil and reported as closed |
| `WriterRuns.MeansNotStoredIff` | internal/storage/sqlitewriter/writer.go:164-179 | an error tells every caller in every run that nothing was stored if and only if it is neither the deadline nor the closed store |
| `WriterRuns.DeadlineButStored` | internal/storage/sqlitewriter/writer.go:374-403 | a run: answered with the deadline, and stored |
| `WriterRuns.DeadlineAndNotStored` | internal/storage/sqlitewriter/writer.go:374-403 | a run: answered with the deadline, and not stored |
| `WriterRuns.AnsweredIffSentInTime` | internal/storage/sqlitewriter/writer.go:146-179 | after the loop ends a sent task is answered if and only if it was sent before the loop last looked; any other waits for ever |
| `WriterRuns.LateSendIsStranded` | internal/storage/sqlitewriter/writer.go:146-158 | a run: a send after the drain |
| `WriterRuns.ExecutedButReportedClosed` | internal/storage/sqlitewriter/writer.go:164-178 | a run: a task answered nil and reported as closed |
| `WriterRuns.QueueHasRoom` | internal/storage/sqlitewriter/writer.go:146-158 | the channel never holds more tasks than its capacity |
| `WriterRuns.QuitNeverRuns` | internal/storage/sqlitewriter/writer.go:146-158 | a caller that leaves before its send returns its own error, or that the store is closed, and its task is in no later state executed |
| `WriterRuns.ShutdownEnds` | internal/storage/sqlitewriter/writer.go:219-251 | from every shutdown between two tasks a run ends the loop with every queued caller told that the store is closed, the store unchanged and the handles closed |
| `Membership.IsGroupMember` | internal/storage/sqlevent/store.go:532-558 | the joined, ordered, limited query over the tables decides by the newest put-user or remove-user event the relay signed for the pair |
| `Membership.MemberByNumbers` | internal/storage/sqlevent/store.go:532-558 | a user is a member exactly if, of the events of kind 9000 and 9001 the relay signed with an "h" tag of the group and a "p" tag of the user, the latest, or of one second the one with the bytewise smallest id, is of kind 9000 |
| `Membership.AppendMember` | internal/storage/sqlevent/store.go:532-558 | a further event decides exactly when it concerns the pair and comes before all others in the query's order |
| `Membership.PutTakesEffectIff` | internal/storage/sqlevent/store.go:541-557 | after a put-user event there is a member if and only if there was one or the event comes first |
| `Membership.RemoveTakesEffectIff` | internal/storage/sqlevent/store.go:541-557 | after a remove-user event there is none if and only if there was none or the event comes first |
| `Membership.MembershipIsFoldOfSaves` | internal/storage/sqlevent/store.go:532-558 | after any run of saves with rising stamps membership is the fold of the saved put and remove events in order |
| `Nip29Runs.StepKeeps` | internal/relay/nip29.go:153-224 | every step under the rule keeps: at most one pending request of the pair but for one event sent twice, joins from outside, leaves from inside, and membership as the deeds say between requests |
| `Nip29Runs.JoinsAndLeavesAlternate` | internal/relay/nip29.go:125-294 | over every interleaving of judging, saving and following up under the rule, joins are accepted only from outside and leaves only from inside, and with no request pending membership is what the deeds say |
| `Nip29Runs.ValidationSafeIff` | internal/relay/nip29.go:153-191 | in every state reached under the rule, accepting a request keeps the alternation in all continuations if and only if no other request of the pair is between its judgement and its follow-up |
| `Nip29Runs.StoreSafeIff` | internal/relay/nip01.go:104-114 | in every state reached under the rule, the save of a judged request keeps the alternation in all continuations if and only if it does not go through while being answered with an error |
| `Nip29Runs.UnansweredJoinIsRepeated` | internal/relay/nip01.go:104-114 | a run: a join is saved after its deadline and not followed up, and the same user's next join is accepted and saved |
| `Nip29Runs.FollowSafeIff` | internal/relay/nip29.go:254-294 | in every state reached under the rule, the relay's put-user or remove-user event keeps it if and only if it takes effect; when it is not saved, or comes after an older ruling in the query's order, the next request repeats the last |
| `Nip29Runs.RulingSafeIff` | internal/relay/nip29.go:197-226 | in every state reached under the rule, a put-user or remove-user event saved by anyone else keeps it if and only if it takes effect while no request is pending, or moves nobody while one is |
| `Nip29Runs.RacingJoinsBothAccepted` | internal/relay/nip29.go:153-175 | a run: two connections of one user join at the same time and both are accepted and saved |
| `Nip29.StrictAlternation` | internal/relay/nip29.go:152-194 | alternating marks without other put or remove events strictly alternate |
| `Nip29Runs.JoinAcceptedIff` | internal/relay/nip29.go:153-175 | a join is accepted exactly for a non-member of a group whose latest metadata does not say closed, when the store answers |
| `Nip29Runs.LeaveAcceptedIff` | internal/relay/nip29.go:176-191 | a leave is accepted exactly for a member, when the store answers |
| `Nip29.MetadataIsFlagged` | internal/nostr/nip29.go:62-92 | in a well kept store the latest metadata says private, or closed, exactly if some event of kind 39000 signed by the relay with the group as its first "d" value has a tag of that name |
| `Nip29Runs.RequestTakesEffect` | internal/relay/nip29.go:197-294 | an accepted request, saved and followed up by an event that comes first, leaves its user a member exactly if it was a join |
| `Visibility.AuthState.AuthedPubkeys` | internal/relay/nip42.go:214-225 | each authenticated pubkey once |
| `Visibility.LatestMetadata` | internal/storage/sqlevent/store.go:498-512 | the group's latest metadata event, rebuilt, says whether it is private; an error means a failed query |
| `Visibility.Recipients` | internal/relay/nip17.go:90-112 | each valid recipient key of a gift wrap once, up to the case of its letters |
| `Visibility.GiftWrapVisible` | internal/relay/nip17.go:115-137 | a gift wrap is shown exactly on a known connection on which one of its recipients is authenticated |
| `Visibility.EventVisible` | internal/relay/nip29.go:316-369 | with each lookup at a moment of its own: what is shown, the rule allowed at some moment of the check; what is hidden without a failed lookup, the group's privacy and each membership found there forbade; gift wraps follow the recipient rule exactly |
| `Visibility.StillWorldDecides` | internal/relay/nip29.go:316-369 | when nothing changes meanwhile that is the rule itself: a private group's events for authenticated members only |
| `Visibility.MoreAuthReadsMore` | internal/relay/nip42.go:192-199 | what was readable stays readable when the connection authenticates another pubkey |
| `Limiter.SlidingEvents.Allow` | internal/relay/limiter.go:22-37 | accepted exactly when the closed window ending now has room, judged on all that was ever accepted |
| `Limiter.ByteWindow.Allow` | internal/relay/limiter.go:54-79 | accepted exactly when its bytes fit that window; empty messages pass and are not remembered |
| `Limiter.EveryWindowHolds` | internal/relay/limiter.go:22-79 | every closed interval of the window's length holds at most the maximum, wherever it is laid |
| `ConnSlots.IpConnTracker.TryAcquire` | internal/relay/ip_conn_tracker.go:17-28 | acquires exactly below the maximum, or always without one |
| `ConnSlots.IpConnTracker.Release` | internal/relay/ip_conn_tracker.go:31-40 | one less, never below zero |
| `ConnSlots.SlotsAreExact` | internal/relay/relay.go:278-331 | in every interleaving each address counts exactly its holders, within the maximum, and the global counter counts the served connections |
| `ConnSlots.ConnectionRuns` | internal/relay/relay.go:278-331 | in every exact state, what each stage of a connection takes and gives back: its address's slot when it passes that check, its count when it is served, both again at its end, and nothing of another address |
| `ConnSlots.MaxOpenUpToOverlap` | internal/relay/relay.go:279-331 | with at most n connections between the global check and the counter, the rate limit and the per-IP slot included, the counter stays within the maximum plus n minus one |
| `ConnSlots.MaxOpenIsPassed` | internal/relay/relay.go:279-331 | for every maximum, per-IP maximum and n from one on, n such connections do reach that bound |
| `ConnSlots.MaxOpenHoldsIff` | internal/relay/relay.go:279-331 | the counter never passes the maximum if and only if no two connections are between check and counter |
| `LatencyRing.Ring.Record` | internal/relay/metrics.go:119-140 | the ring holds the newest samples of all that were recorded |
| `LatencyRing.Ring.Recent` | internal/relay/metrics.go:143-155 | exactly the newest samples that fit, oldest first, for every capacity |
| `PluginFilters.NostrFilterToSdk` | internal/plugin/convert.go:43-60 | same conditions under bare tag names, search text trimmed |
| `PluginFilters.SdkFilterToNostr` | internal/plugin/convert.go:62-86 | a parsed filter's tag map comes back from its bare names |
| `PluginFilters.FilterToWire` | sdk/plugin/wire.go:43-76 | one wire entry per tag name in any order; kinds and limit cut to 32 bits |
| `PluginFilters.FilterFromWire` | sdk/plugin/wire.go:78-108 | the tag map is read back whatever the order |
| `PluginFilters.ThroughPlugin` | internal/plugin/instance.go:617-672 | to the plugin and back only the search text and the width of kinds and limit can change |
| `PluginFilters.CloneFilters` | internal/plugin/convert.go:119-125 | a clone differs in its normalised search text only |
| `PluginFilters.MeaningSurvivesIff` | internal/plugin/instance.go:617-672 | a filter accepts the same events after the trip if and only if its kinds fit in 32 bits or it accepts none |
| `PluginFilters.SearchAndLimitSurvive` | internal/plugin/instance.go:617-672 | the search is the same afterwards, and the limit exactly when it fits |
| `PluginFilters.WideKindChangesMeaning` | internal/plugin/instance.go:617-672 | a wider kind comes back as another kind and the filter accepts what it did not |

## Left out

- WebSocket framing, HTTP handlers, the admin API, the web front end, configuration parsing: I/O without protocol state.
- Signatures, hashing, bech32, JSON: given functions; the JSON encoding of a tag is taken as injective, and marshalling an event as never failing.
- The PostgreSQL store and its LISTEN/NOTIFY fan-out: the same logic as the SQL store modelled here.
- Full-text ranking: a search is any ordered list of stored events that meet the filter's other conditions.
- SQL transactions are atomic; the model says nothing of isolation between concurrent readers.
- The negentropy algorithm: a reconcile either fails, is empty or is not.
- Plugin processes, gRPC transport and installation; plugins that change a filter are covered only by the conversions.
- Delivery.Section: follows one connection and one sub id as a step machine over values; work for other subscriptions shares only the reader queue and is no step of it. A visibility check is one step, at a moment such as the contract of Visibility.EventVisible names. Why a REQ is refused is an input. Audit counters of the initial delivery, the rendered text of CLOSED and log lines are not modelled.
- Subscriptions.SubscriptionManager: entries are values inside the table instead of shared pointers; all their fields are reached through the manager.
- NegAccounting.Section: handlers are modelled as steps over values; the session map in place is `NegSessions`. Rate limits, the relay-busy test, filter validation and the frame contents of NIP-77 are not modelled, and queue shutdown is not a step.
- Writer.Queue.Ping: its five-second limit and the exact texts of driver errors and panics are inputs; closing a handle does not panic; lower-casing covers ASCII only.
- EventTables.Store.SaveEvent: how often its closure runs, which statement fails and what the caller is told are inputs here; `WriterRuns` ties the two.
- WriterRuns.Next: the supervisor's restart after a panic of the loop itself is not a step, since every panic of a task is recovered inside it.
- Nip29Runs.Next: the metadata lookup of a join is an input, at whatever moment it was made; creating missing group metadata is a step of others; deletions of stored events by an administrator are no step. That the excluded steps do break the alternation supposes that an id identifies its event and that the int64 clock has two seconds left.
- Nip29: moderation rights, late-publication and `previous` rules are single-branch tests on one event.
- Visibility.EventVisible: the latest metadata row is the only one, because its kind is addressable; case folding covers ASCII letters.
- SchemaLadder.Exec: groups of statements that can be repeated are one statement; of the indexes only those version 5 brings are modelled, and column types are not.
- ConnSlots: what the per-minute rate limit decides and how the handshake goes are inputs.
- LatencyRing.Ring: the source's capacity is 8192; the model holds for every positive capacity.
- Limiter: the maps from address to window, which only create windows.
- EventQuery.ApplyFilterQuery: requires that an empty key has no values, since the source panics there.
- Base and Nostr: strings are sequences of characters, and byte-wise comparison is modelled on them.
