# Verified model of the Open-Falcon graph store and its neighbours

Open-Falcon's graph module keeps time series: items arrive, wait in a cache of linked lists, are flushed to rrd files,
and queries merge the cache with the files. While a cluster grows, a node takes series over from their old node by
forwarding items or fetching files. Around it stand the aggregator, which evaluates expressions over the hosts of a
cluster, the agent, which keeps plugins running, and a lease on Redis. This project models that logic and proves what
it is meant to keep, or exactly when it does.

`dafny verify dfyconfig.toml` checks everything (Dafny 4.11).

| file | what it models |
|---|---|
| Model.dfy, Arithmetic.dfy, Strings.dfy | items, points, float values as a real or NaN; arithmetic and the parts of Go's strings, sort and strconv in use |
| FlatStore.dfy, Store.dfy | the sharded map of linked lists as classes, refining one flat map |
| Tags.dfy, SeriesKeys.dfy | tag strings, counters, primary keys, UUIDs, store keys, file names |
| Index.dfy, IndexUpdate.dfy, History.dfy | index caches, their incremental update among receivers, bounded history |
| Ingest.dfy, Api.dfy, Reads.dfy | handleItems, Query, GetLast, Delete; what queries return of what was ingested |
| Creation.dfy, Copies.dfy | receivers that interleave between the locks: first pushes on a key, and copies of a batch |
| QueryMerge.dfy, QueryMeaning.dfy | the loops that densify, splice and pad, and what they mean point by point |
| Rrdtool.dfy, Clean.dfy | the flush sweep and the cleaning of unindexed keys |
| NetWorker.dfy, WorkerSteps.dfy | send_data, fetch_rrd and the pull task as code, and as steps of the protocol |
| OldNode.dfy | the old node: popped batches, their writes, and what its file holds |
| Migration.dfy, MigrationSafety.dfy, Handover.dfy | the same as interleaving steps of two nodes: conservation, the MISS gate, the handover |
| IoWorkers.dfy, IoQueues.dfy | which worker serves a file, and the queues of the workers |
| CleanParam.dfy, Expression.dfy, Aggregate.dfy, Cluster.dfy | the expressions of the aggregator, their evaluation, one run over a cluster |
| Lease.dfy | the lock of GetDisLock under delayed and lost commands |
| Plugins.dfy | the reconciliation of plugin schedulers |

Where a promise of the source turns out not to hold on all inputs, the model keeps the code as it is, a lemma gives the
input or the run that shows it, and the condition under which it does hold is proved, in both directions wherever the
table says "if and only if". The cases are: the splice when the disk starts after the cache (LateDisk), the restore of a
popped batch after late items (RestoreCanBreakOrder), copies of a batch whose tests and pushes cross (TwoCopies), first
pushes on a new key that cross (FirstPushLost, CrossedPushRun), MISS with several workers per old node (StaleFlagRun;
the shipped configuration uses two), the handover while a sweep of the old node holds a batch, when batches overtake one
another or when a flush fails there (InHandRun, OvertakenRun, FailedFlushRun; exact in HandoverExact), a slash in
endpoint or metric, or tags beside a metric that spells them out (PkCollides, exact in PkExact), a dollar sign in a
counter name (DollarDropsCounter), host names that begin one another (KeysDistinct), an index entry that changes during
an update (NewerEntryLost), and a lease whose SETNX, EXPIRE or decision is late (SlowSetNx, LateDecision, TwoGrants).

Parameters stand for what the model cannot see: md5 and crc32 as functions (injective where the table says so), the
existence of rrd files, the characters that count as printable, the consistent hash, clocks, database answers, RPC and
disk outcomes, what an rrd fetch or a remote query returns, and the plugins found under a directory.

## Model

| member | source | states |
|---|---|---|
| `Api.AnswerIsPointwise` | modules/graph/api/graph.go:205-315 | For every kind, every list of increasing cached items on the step and every disk grid that starts no later than the cache: the answer has (end-start)/step points, one more for GAUGE; point i is at start + i*step and shows the cached value unless it is NaN, else the disk value at that time, else NaN. |
| `Api.AnswerSize` | modules/graph/api/graph.go:297-302 | The number of points returned, for all inputs that reach the merge. |
| `Api.Graph.Query` | modules/graph/api/graph.go:131-321 | For every request: nothing for an unknown series, else the answer for the aligned window over the cached items of the key and the disk points, or the remote ones while MISS is set. |
| `Api.Graph.QueryWindow` | modules/graph/api/graph.go:155-314 | The early exits (empty window, window older than the base archive, nothing cached) and the merge, against one specification function. |
| `Api.WindowAligned` | modules/graph/api/graph.go:153-154 | The window boundary is on the step grid for every start, negative ones included. |
| `QueryMeaning.MergeIsPointwise` | modules/graph/api/graph.go:205-315 | At every aligned time of the window what the padded merge shows is the pointwise lookup: cache unless NaN, else disk, else NaN. |
| `QueryMeaning.SpliceExact` | modules/graph/api/graph.go:264-294 | For given cache and disk time grids, the splice by position shows the pointwise merge for all values if and only if one grid is empty or the disk grid starts no later than the cache grid. |
| `QueryMeaning.LateDisk` | modules/graph/api/graph.go:264-294 | Whenever the disk grid starts after the cache there are values for which the splice shows a wrong point, because the overwrite starts at position 0 whatever the times. |
| `QueryMeaning.FetchedMergeReady` | modules/graph/rrdtool/rrdtool.go:205-234 | Points fetched from start - step at the base resolution always meet the disk side of the condition of the merge. |
| `QueryMeaning.GridMergeReady` | modules/graph/api/graph.go:205-315 | Any contiguous points that start at the window meet the condition of the merge. |
| `Reads.RunIsReadPointwise` | modules/graph/api/graph.go:73-321 | After any run of ingested batches and pops whose items for a key are on its step, from a store in order: a query of that key inside the base archive answers, at every time of its window, the cached value unless NaN, else that of the fetched file points, else NaN. |
| `Reads.RunKeepsReady` | modules/graph/api/graph.go:85-121 | Any run of batches and pops keeps every list strictly newest first, and the lists of a key with aligned items aligned. |
| `Reads.RemoteAnswerIsPointwise` | modules/graph/api/graph.go:160-315 | While MISS is set the disk points are themselves the answer of the old node: each returned point is the new cached value unless NaN, else the cached value of the old node, if it has any, unless NaN, else what the old file says. |
| `QueryMeaning.SplicePoint` | modules/graph/api/graph.go:264-294 | The in-place overwrite, the NaN fill and the append amount to a pointwise merge of two contiguous grids. |
| `QueryMeaning.CachePoint` | modules/graph/api/graph.go:211-251 | The densified cache is a lookup: at each time of the window it shows the item there (GAUGE), or the rate to the item one step later (COUNTER, DERIVE), and NaN otherwise, over the items the walk reaches. |
| `QueryMeaning.DenseGrid` | modules/graph/api/graph.go:211-251 | The densified cache is a contiguous step grid inside the window. |
| `QueryMeaning.ReachedExact` | modules/graph/api/graph.go:211-251 | Of strictly increasing items the densifying loops reach every one if and only if all are in phase with the first. |
| `QueryMeaning.JunctionInPhase` | modules/graph/api/graph.go:266-275 | Inside the range of the disk the position the backward search finds is the one whose time is the first of the cache. |
| `QueryMeaning.FillGrid` | modules/graph/api/graph.go:277-280 | The gap between disk and cache is filled with NaN points on the step grid up to the cache, no more and no fewer. |
| `QueryMeaning.WalksAll` | modules/graph/api/graph.go:297-313 | The padding loop walks a contiguous aligned list to its end. |
| `QueryMerge.FormatRates` | modules/graph/api/graph.go:214-235 | The two-pointer COUNTER and DERIVE loop, for any items, yields the densified grid of its specification; it terminates. |
| `QueryMerge.FormatGauges` | modules/graph/api/graph.go:236-251 | The two-pointer GAUGE loop, likewise. |
| `QueryMerge.FormatCache` | modules/graph/api/graph.go:207-251 | The cached items on the grid of the query. |
| `QueryMerge.WalkStep` | modules/graph/api/graph.go:214-251 | One turn of the walk: the test under the item pointer finds exactly what a lookup over the reached items finds. |
| `QueryMerge.PassedRun` | modules/graph/api/graph.go:211-251 | A walk passes exactly the longest run of times that stays on its grid and strictly increases. |
| `QueryMerge.Fetch` | modules/graph/rrdtool/rrdtool.go:205-234 | A fetched point i has the timestamp start + (i+1)*step and the value of row i. |
| `QueryMerge.FilterDisk` | modules/graph/api/graph.go:256-262 | Keeps exactly the disk points inside the window. |
| `QueryMerge.FindJunction` | modules/graph/api/graph.go:264-275 | The backward search ends at the last disk point before the cache, or before the first. |
| `QueryMerge.FixMissing` | modules/graph/api/graph.go:276-280 | Appends the NaN fill. |
| `QueryMerge.OverlayCache` | modules/graph/api/graph.go:281-293 | Overwrites in place where the cached value is not NaN, then appends. |
| `QueryMerge.SpliceCache` | modules/graph/api/graph.go:264-294 | The whole splice against its specification, for any lists. |
| `QueryMerge.PadResult` | modules/graph/api/graph.go:296-313 | The two-pointer padding loop is a lookup at start + i*step. |
| `QueryMerge.Merge` | modules/graph/api/graph.go:205-314 | The composition of the stages, for any items and any disk points. |
| `Api.Graph.HandleItem` | modules/graph/api/graph.go:85-128 | One received item takes store, index and history to the state of the ingest specification; refused items change nothing. |
| `Api.Graph.HandleItems` | modules/graph/api/graph.go:73-129 | A batch with nil entries takes the stores through its items in order. |
| `Ingest.RetriesAreHarmless` | modules/graph/rrdtool/migrate.go:281-291 | Deliver any number of copies of a batch and interleave their processing in any way, each item taken without interruption: store, index and history end as after one run over the part of the batch that some copy reached. |
| `Copies.CopiesHarmlessExactly` | modules/graph/api/graph.go:62-121 | The same with the test of an item, the look-up of its list and its push as three steps: in every run of any number of copies in which no list is set over another, the cached lists end as after one run over the part of the batch that some copy reached if and only if no copy pushed on a list after another push had come there since its test. |
| `Copies.PresentNotReplaced` | modules/graph/store/store.go:173-188 | For a batch of series that are cached already no run sets a list over another, so there the condition is exact in every run. |
| `Copies.TwoCopies` | modules/graph/api/graph.go:116-121 | Whatever is cached, two copies of an item that may go in, both tested before either pushes, cache it twice. |
| `Copies.CrossedCopies` | modules/graph/store/store.go:173-188 | Two copies of a first item that both find no list: the second list replaces the first and the outcome is that of one run. |
| `Copies.ListsOfBatch` | modules/graph/api/graph.go:116-121 | The lists of that comparison are those of the sequential handleItems. |
| `Creation.PushesKeptExactly` | modules/graph/store/store.go:173-188 | Any number of PushFronts on one key, each looking the key up under one lock and pushing or setting under another: what is under the key is everything put, in order, on what was there, if and only if no push set its own list over another; otherwise items are lost, which cannot happen to a key that was there from the start. |
| `Creation.FirstPushLost` | modules/graph/store/store.go:173-188 | Two first pushes on a new key: the item of the one set first is gone. |
| `Creation.StackedIsFlat` | modules/graph/store/store.go:173-188 | The undisturbed outcome is the one of these PushFronts on the flat map. |
| `Ingest.BatchIdempotent` | modules/graph/api/graph.go:85-128 | Processing a batch twice with no pop between leaves store, index and history exactly as processing it once. |
| `Ingest.Again` | modules/graph/api/graph.go:101-105 | After a batch any one of its items changes nothing. |
| `Ingest.BatchKeepsOrder` | modules/graph/api/graph.go:101-121 | Every list stays strictly newest first through any batch. |
| `Ingest.PopKeepsOrder` | modules/graph/store/linkedlist.go:75-93 | A pop keeps the order, and what it returns is strictly increasing. |
| `Ingest.RestoreKeepsOrder` | modules/graph/rrdtool/migrate.go:292-293 | Putting a popped batch back keeps the order if and only if the oldest item received meanwhile is newer than the newest item of the batch. |
| `Ingest.RestoreCanBreakOrder` | modules/graph/rrdtool/migrate.go:274-293 | A late item received between pop and restore, which an empty list accepts whatever its age, breaks the order. |
| `Api.Graph.RemoveItem` | modules/graph/index/index.go:64-78 | The series loses its index entries and its cached items, and its rrd file is removed; the flag word of its entry and its history stay, and no other series changes. |
| `Api.Graph.Delete` | modules/graph/api/graph.go:324-344 | A batch of requests takes the stores through them in order and removes their files; one whose tags do not parse is skipped. |
| `Api.DeleteFindsItem` | modules/graph/api/graph.go:324-344 | A request by the printed tags of an item with clean tags reaches exactly the key, the entries and the file that receiving the item goes by. |
| `FlatStore.PopRestoreCommutes` | modules/graph/rrdtool/migrate.go:274-293 | PopAll, then any PushFronts on any keys, then PushAll of what was popped is the same map as those PushFronts alone; with none it is the identity. |
| `FlatStore.Masks` | modules/graph/rrdtool/migrate.go:296-297 | The masks that clear a flag bit are the complements of the bits. |
| `Store.SafeLinkedList.PushFront` | modules/graph/store/linkedlist.go:35-39 | The item becomes the front of the list. |
| `Store.SafeLinkedList.PopAll` | modules/graph/store/linkedlist.go:75-93 | Returns the list oldest first and empties it. |
| `Store.SafeLinkedList.PushAll` | modules/graph/store/linkedlist.go:96-106 | Puts items, oldest first, behind the back of the list. |
| `Store.SafeLinkedList.FetchAll` | modules/graph/store/linkedlist.go:109-122 | Returns the list oldest first and the flag, changing nothing. |
| `Store.GraphItemMap.constructor` | modules/graph/store/store.go:236-249 | All shards start empty. |
| `Store.GraphItemMap.GetFirst` | modules/graph/store/store.go:84-99 | The newest item, as on one flat map. |
| `Store.GraphItemMap.GetBack` | modules/graph/store/store.go:207-222 | The oldest item, as on one flat map. |
| `Store.GraphItemMap.GetItemCnt` | modules/graph/store/store.go:225-234 | The length of the list, 0 for a missing key. |
| `Store.GraphItemMap.Set` | modules/graph/store/store.go:67-72 | Sets one key of the flat map. |
| `Store.GraphItemMap.PushFront` | modules/graph/store/store.go:173-188 | Run alone, refines PushFront on the flat map; a new key gets MISS exactly when migration is on and there is no file; no other key changes. |
| `Store.GraphItemMap.PushAll` | modules/graph/store/store.go:101-111 | Refines the flat restore; a missing key is an error and changes nothing. |
| `Store.GraphItemMap.GetFlag` | modules/graph/store/store.go:113-122 | The flag word, or an error. |
| `Store.GraphItemMap.SetFlag` | modules/graph/store/store.go:124-134 | Changes the flag word of one key only, or is an error. |
| `Store.GraphItemMap.PopAll` | modules/graph/store/store.go:136-145 | Refines the flat pop: the list is returned oldest first, its flag word stays. |
| `Store.GraphItemMap.FetchAll` | modules/graph/store/store.go:147-157 | The list oldest first and the flag word; nothing changes. |
| `Store.GraphItemMap.Remove` | modules/graph/store/store.go:46-57 | Removes exactly the key, and says whether it was there. |
| `Store.GraphItemMap.KeysByIndex` | modules/graph/store/store.go:190-205 | Each key of the shard once, and no other: over all shards this partitions the domain. |
| `Store.GraphItemMap.KeysAdd` | modules/graph/store/store.go:190-205 | The shards have no key in common: their sizes add up to the number of distinct keys in them. |
| `Store.GraphItemMap.Len` | modules/graph/store/store.go:74-82 | The sum of the shard sizes is the number of series. |
| `Sharding.SetSharded` | modules/graph/store/store.go:67-72 | Setting a key in its shard keeps the shards and the flat map in agreement. |
| `Sharding.RemoveSharded` | modules/graph/store/store.go:46-57 | Removing a key from its shard likewise. |
| `Rrdtool.RrdTool.CommitByKey` | modules/graph/rrdtool/rrdtool.go:248-260 | The whole list of the key goes to its file log, oldest first, exactly when the key can be taken apart; every other key and log stays. |
| `Rrdtool.RrdTool.PullByKey` | modules/graph/rrdtool/rrdtool.go:262-289 | Queues one pull for a key with cached items, with the node that the consistent hash gives for the primary key of its newest item; none if there is no such node. |
| `Rrdtool.RrdTool.CheckFlush` | modules/graph/rrdtool/rrdtool.go:317-330 | Flush at six items, or when the oldest has waited a day. |
| `Rrdtool.RrdTool.SweepKey` | modules/graph/rrdtool/rrdtool.go:301-313 | Forced or not, one key is committed, pulled or left, and nothing else changes. |
| `Rrdtool.RrdTool.FlushRRD` | modules/graph/rrdtool/rrdtool.go:291-315 | Every key of the shard is treated once by its own state before the sweep; pulls are queued once each for exactly those with MISS, items and a node; the timeout flag ends set if and only if some key with MISS had its turn too late; no other key changes. |
| `Rrdtool.RrdTool.FlushAll` | modules/graph/rrdtool/rrdtool.go:236-246 | The same for all shards; after a forced flush only keys that cannot be taken apart still hold items, and each other key moved all of its items to its log. |
| `Rrdtool.SweptThen` | modules/graph/rrdtool/rrdtool.go:301-313 | Sweeps of disjoint key sets compose. |
| `Clean.DeleteInvalidItems` | modules/graph/cron/clean.go:68-91 | Removes exactly the three-part keys whose md5 is not indexed, and the count is the drop in the number of series. |
| `Clean.CleanShard` | modules/graph/cron/clean.go:73-83 | The same for one shard. |
| `Clean.DeleteInvalidHistory` | modules/graph/cron/clean.go:94-113 | Removes exactly the histories that are not indexed and counts them. |
| `History.HistoryIsLastRecords` | modules/graph/store/history.go:64-79 | For every stream, what AddItem leaves is its last three strict running maxima by timestamp, newest first. |
| `History.HistoryCache.AddItem` | modules/graph/store/history.go:64-79 | One key changes, as the history of its stream does. |
| `History.HistoryCache.GetAllItems` | modules/graph/store/history.go:47-62 | The history of the key, newest first. |
| `History.LastRate` | modules/graph/api/graph.go:398-418 | The rate branch of GetLast against its specification. |
| `History.RateNeverNegative` | modules/graph/api/graph.go:398-418 | The rate is never negative, and its timestamp is non-zero only for two newest items exactly one step apart. |
| `History.LastIsQueryRate` | modules/graph/api/graph.go:398-418 | With the two newest items one step apart and still cached, the rate equals the one Query shows one step earlier if and only if the value did not drop. |
| `Api.Graph.GetLast` | modules/graph/api/graph.go:388-421 | The newest gauge value or the rate of the history, and the empty answer for an unknown series. |
| `Tags.SortedTags` | common/utils/tags.go:24-67 | Whatever order the map gives its keys in, the result is the one canonical string. |
| `Tags.KeysOf` | common/utils/tags.go:48-53 | Collects each key once, in any order. |
| `Tags.WritePairs` | common/utils/tags.go:57-64 | Writes k=v pairs joined by commas. |
| `Tags.DictedTagstring` | common/utils/tags.go:82-100 | The lenient parser, against its specification. |
| `Tags.SplitTagsString` | common/utils/tags.go:102-123 | The strict parser, with its error. |
| `Tags.TagsRoundTrip` | common/utils/tags.go:24-123 | Either parser gives the printed map back if and only if no key has '=', ',' or space and no value has ',' or space. |
| `Tags.ParsersAgree` | common/utils/tags.go:82-123 | On every string the strict parser accepts, both give the same map. |
| `Tags.PrintedInjective` | common/utils/tags.go:24-67 | Distinct clean maps print differently. |
| `SeriesKeys.Counter` | common/utils/counter.go:21-26 | metric, or metric/tags. |
| `SeriesKeys.PK` | common/utils/func.go:31-49 | endpoint/metric, or endpoint/metric/tags. |
| `SeriesKeys.UUID` | common/utils/func.go:63-90 | The primary key with type and step appended. |
| `SeriesKeys.ConunterToMetricAndTags` | common/utils/tags.go:69-80 | Cuts at the first slash. |
| `SeriesKeys.CounterInverse` | common/utils/tags.go:69-80 | Taking a counter apart gives metric and tags back if and only if the metric has no slash and the tags are clean. |
| `SeriesKeys.PkIsPath` | common/utils/func.go:31-61 | The primary key of the write path is endpoint/counter, the one of the read path. |
| `SeriesKeys.PkInjective` | common/utils/func.go:31-49 | Among slash-free endpoints and metrics with clean tags two primary keys are equal if and only if the series are. |
| `SeriesKeys.PkExact` | common/utils/func.go:31-49 | A primary key is that of one series only if and only if its endpoint and metric have no slash and it has no tags. |
| `SeriesKeys.PkCollides` | common/utils/func.go:31-49 | For every series with a slash in endpoint or metric, or with any tags, there is another one with the same primary key. |
| `SeriesKeys.TypeStepInjective` | common/utils/func.go:63-90 | Type and step are told apart after a common prefix. |
| `SeriesKeys.KeyInverse` | modules/graph/g/utils.go:39-60 | Taking a store key apart gives its parts back if and only if md5 and type have no underscore and the step fits 32 bits. |
| `SeriesKeys.FileInjective` | modules/graph/g/utils.go:28-31 | Distinct store keys have distinct files. |
| `Index.IndexCaches.ReceiveItem` | modules/graph/index/index.go:34-61 | The four cases of an arriving item: already indexed with the same identity, indexed under another, unindexed with a file, unindexed without. |
| `Index.IndexCaches.UpdateIndexIncr` | modules/graph/index/index_update_incr_task.go:53-86 | Run alone: every unindexed item whose statements succeed becomes indexed; the unindexed cache is emptied. |
| `IndexUpdate.RunKeeps` | modules/graph/index/index_update_incr_task.go:53-86 | With receivers, deletions and any number of update goroutines interleaved, in every run: a series received and not discarded since is indexed, waits to be, is in an update or had one that failed since; its newest entry is in one of these places if and only if no step dropped it by removing it in place of an older one, by putting an older one over it or by a failed update; every entry carries the checksum and UUID of its own item. |
| `IndexUpdate.NewerEntryLost` | modules/graph/index/index_update_incr_task.go:65-81 | For every two items of a checksum with different entries: the second, arriving between the look-up and the removal of the first, is in neither cache in the end. |
| `Index.IndexCaches.Discard` | modules/graph/index/index.go:64-78 | The entry leaves both caches. |
| `Index.IndexCaches.GetTypeAndStep` | modules/graph/index/cache.go:59-86 | The indexed entry decides, else the database. |
| `Index.ReceiveMatching` | modules/graph/index/index.go:34-61 | Every entry keeps the checksum and UUID of its own item. |
| `Index.UpdateMatching` | modules/graph/index/index_update_incr_task.go:53-86 | So does every entry that is promoted. |
| `Index.ReadsWhatWasWritten` | modules/graph/api/graph.go:146-164 | With an injective md5, a query for an item just received reads the store key it was written under if and only if the type and step it is given are those of the item: those of the entry already indexed, the item's own if it has a file, else those of the database. |
| `NetWorker.Worker.SendData` | modules/graph/rrdtool/migrate.go:258-300 | Alone: the list is empty afterwards if some of three calls succeeded and is exactly the old one otherwise; SENDING is clear, all other bits stay; the old node got one copy for each delivered try. |
| `NetWorker.Worker.CallSend` | modules/graph/rrdtool/migrate.go:281-291 | At most three tries, none after the first success. |
| `NetWorker.Worker.FetchRrd` | modules/graph/rrdtool/migrate.go:302-355 | Alone: MISS is cleared if and only if a file came and was written; FETCHING always is; the list stays. |
| `NetWorker.Worker.FetchFile` | modules/graph/rrdtool/migrate.go:322-349 | The first file answered is written once; a failed write ends the fetch. |
| `NetWorker.Worker.PullTask` | modules/graph/rrdtool/migrate.go:177-204 | The three ways a pull ends, and that no other key changes: a send when the sweep is late, a fetch, or for a missing file the flag reset and a commit. |
| `WorkerSteps.SendAlone` | modules/graph/rrdtool/migrate.go:258-300 | The next actions of a worker in the protocol below, with nothing between them, are send_data: first SENDING is set in the flag word, and in the end the list and the word are those SendData leaves, and the old node got what it sends. |
| `WorkerSteps.FetchAlone` | modules/graph/rrdtool/migrate.go:177-204 | Likewise for a fetch with the old node serving it: FETCHING is set in the word, and list, word and file end as PullTask leaves them for a key that can be taken apart. |
| `Migration.UnmarkSending` | modules/graph/rrdtool/migrate.go:296-297 | The flags of a word in which the code has cleared SENDING are those of the word without SENDING. |
| `Migration.UnmarkFetching` | modules/graph/rrdtool/migrate.go:351-353 | Likewise for FETCHING. |
| `Migration.UnmarkMiss` | modules/graph/rrdtool/migrate.go:338-339 | Likewise for MISS. |
| `Migration.MarkWord` | modules/graph/rrdtool/migrate.go:272-315 | The flags of a word in which SENDING or FETCHING has been set are those of the word with it. |
| `Migration.RunBalances` | modules/graph/rrdtool/migrate.go:258-300 | Conservation in every run, for any number of workers and receivers: each item accepted n times is found n times among list, popped batches, batches handed to FlushFile, acknowledged batches and what was dropped: with a removed entry, with one that a crossing first push replaced, on a list that was detached between look-up and push, or by a delete request. |
| `Migration.StepBalances` | modules/graph/rrdtool/migrate.go:258-300 | Every step keeps that balance. |
| `MigrationSafety.NothingLost` | modules/graph/rrdtool/migrate.go:258-300 | In every run in which no entry is removed or replaced and no delete request comes, whatever the RPC outcomes, each accepted item is in the list, in a popped batch, handed to FlushFile or in what the old node received. |
| `MigrationSafety.CommitsOnlyWhenClear` | modules/graph/rrdtool/rrdtool.go:301-313 | With at most one worker and no entry removed or replaced, an ordinary sweep, however long ago it read the flag, and the worker after a missing file both commit only in states where MISS is clear. |
| `MigrationSafety.MissNeverReturns` | modules/graph/rrdtool/migrate.go:267-353 | From no reachable state does a step other than a removal or replacement of the entry bring MISS back once clear, if and only if at most one worker serves the old node. |
| `MigrationSafety.StaleFlagRun` | modules/graph/rrdtool/migrate.go:133-154 | For every number of workers from two on there is a reachable state in which a flag word read before a fetch finished is written back, and MISS with it. |
| `MigrationSafety.CrossedPushRun` | modules/graph/store/store.go:173-188 | With any worker at all: a push that found the key missing sets its own list after the fetch was finished, and MISS is back. |
| `MigrationSafety.MissChanges` | modules/graph/rrdtool/migrate.go:177-204 | With one worker and no entry removed or replaced MISS appears only with a new entry and goes only with a finished fetch or the missing-file path. |
| `MigrationSafety.MarksAreCleared` | modules/graph/rrdtool/migrate.go:296-353 | With the worker idle neither SENDING nor FETCHING is left on the word. |
| `Handover.Handover` | modules/graph/rrdtool/migrate.go:302-355 | In every run of any number of workers, the old node popping, flushing and reading in separate steps: once a fetch cleared MISS the local file starts with the answer it got, unless a delete request took it away. If all batches the old node had popped by the call were written when the answer was read, nothing it had accepted at that pop is missing, cached items included; if they were written first and in order, the answer starts with it. |
| `Handover.HandoverExact` | modules/graph/rrdtool/migrate.go:302-355 | Where the old node accepted no item twice: the answer starts with the history at the pop of the call if and only if that history was written first and in order, and misses none of it if and only if no batch of it was still in hand and no flush of it had failed. |
| `Handover.CallRecordsHistory` | modules/graph/api/graph.go:37-50 | What an answer is compared with is the history of the old node at the very step at which the call pops its list. |
| `Handover.AnswerRecordsFile` | modules/graph/api/graph.go:51-56 | An answer is the file at the step at which it is read, with the state of the batches then. |
| `Handover.EndRecordsAnswer` | modules/graph/rrdtool/migrate.go:336-353 | MISS is recorded as cleared only when a fetch ends, by the answer that was written. |
| `OldSide.WrittenIsThere` | modules/graph/rrdtool/rrdtool.go:248-260 | Whatever repeats: if the first n popped batches were written, each of their items is in the file. |
| `Handover.OldFileIsWhole` | modules/graph/rrdtool/rrdtool.go:248-260 | In every run, repetitions or not: the old file is as long as everything accepted if and only if nothing is cached there, no batch is in hand and no flush failed. |
| `Handover.InHandRun` | modules/graph/api/graph.go:49-54 | Without any failure: a sweep of the old node holds a popped item while a call finds an empty list and reads the file, and the finished handover misses it. |
| `Handover.OvertakenRun` | modules/graph/api/graph.go:49-54 | A batch of a sweep reaches the file before the one the call popped earlier: nothing is missing but the order is lost. |
| `Handover.LateItemRun` | modules/graph/api/graph.go:49-56 | An item accepted between the pop and the answer of a call is in neither, though every condition on the call holds. |
| `OldSide.FileStartsWithHistory` | modules/graph/rrdtool/rrdtool.go:248-260 | For any number of sweeps and calls on the old node that accepted no item twice, the file starts with the items of the first n popped batches if and only if these were written before any other, in order. |
| `OldSide.FileMissesNothing` | modules/graph/rrdtool/rrdtool.go:248-260 | It misses none of them if and only if none is still in hand and none failed. |
| `Handover.FailedFlushRun` | modules/graph/api/graph.go:49-55 | GetRrd drops a flush error: with a failing disk there is a run in which a finished handover misses a cached item. |
| `IoWorkers.IndexInRange` | modules/graph/rrdtool/utils.go:26-40 | Every lower-case hex checksum of any length names an existing worker. |
| `IoWorkers.EachServesAsMany` | modules/graph/rrdtool/utils.go:26-40 | With 2^n workers, fewer than 2^60, and the derived prefix length, the set of hex prefixes that getIndex sends to a worker, whatever follows them, has the same size for each worker: 16^length / 2^n. |
| `IoWorkers.ServedAre` | modules/graph/rrdtool/utils.go:26-40 | That set holds exactly the lower-case hex strings of the length for which getIndex names the worker. |
| `IoWorkers.LoadIsEven` | modules/graph/g/cfg.go:104-110 | 2^n divides 16^length for the derived length, and every residue occurs equally often among the values below it. |
| `IoWorkers.HexUnique` | modules/graph/rrdtool/utils.go:26-40 | A prefix of given length is determined by its value, so counting values counts prefixes. |
| `IoWorkers.PrefixIndex` | modules/graph/rrdtool/utils.go:26-40 | The prefix of value v goes to worker v mod 2^n. |
| `IoQueues.SeesEarlierTasks` | modules/graph/rrdtool/sync_disk.go:93-129 | In every run of any number of workers, the k-th task finished on a file is the k-th submitted for it and finds the file exactly as those before it leave it: a fetch sees every flush submitted first. |
| `IoQueues.RunInStep` | modules/graph/rrdtool/rrdtool.go:160-203 | For each file: finished tasks followed by queued ones are the submitted ones in order, and the file is what the finished ones made of it. |
| `Expression.AcceptsExactlyPrinted` | modules/aggregator/cron/run.go:216-253 | A string is accepted if and only if it is the print of an expression of the grammar of the four patterns and has no full-width parenthesis. |
| `Expression.PrintedIsAccepted` | modules/aggregator/cron/run.go:216-253 | Every sum of signed counters, bare or compared, is accepted once printed. |
| `Expression.ComputedExactly` | modules/aggregator/cron/run.go:212-214 | Of the accepted strings exactly the sums of counters are computed. |
| `Expression.Parse` | modules/aggregator/cron/run.go:174-198 | The loop over the split items deals them out by parity, and the last is the mode; the slice is in bounds. |
| `Expression.SplitPiece` | modules/aggregator/cron/run.go:184-185 | A piece, the longest run of separators after it and the rest split into the piece and the split of the rest. |
| `Expression.ParseInvertsPrint` | modules/aggregator/cron/run.go:174-198 | For every accepted computed expression, parse gives back its counters, signs and comparison if and only if no counter name has a dollar sign. |
| `Expression.ModeIsComparison` | modules/aggregator/cron/run.go:195-196 | Whatever the counters are called, the comparison is read back. |
| `Expression.OperatorsInBounds` | modules/aggregator/cron/computer.go:35-41 | There is an operator before every operand but the first, so operators[i] is in bounds. |
| `Expression.DollarDropsCounter` | modules/aggregator/cron/run.go:174-198 | An accepted expression with a counter named $ loses that counter without an error. |
| `Aggregate.Compute` | modules/aggregator/cron/computer.go:23-52 | The loop is the left fold of its specification; errors for no operand and for a missing value. |
| `Aggregate.QueryOperands` | modules/aggregator/cron/computer.go:74-83 | The values that are there, in order. |
| `Aggregate.AcceptedIsComputable` | modules/aggregator/cron/run.go:216-253 | What parse makes of any accepted computed string, compute and compareSum can handle without a panic. |
| `Aggregate.ComputesMeaning` | modules/aggregator/cron/computer.go:23-52 | For a printed expression parse and compute give its meaning: nothing unless every counter has a value at the host, else the signed sum, or 1 or 0 for its comparison. |
| `Aggregate.FoldIsTotal` | modules/aggregator/cron/computer.go:34-41 | The left fold is the sum of the counters, each with its own sign. |
| `Aggregate.ModeFound` | modules/aggregator/cron/computer.go:54-72 | compareSum finds operator and number of every accepted comparison again. |
| `Aggregate.DecimalParses` | modules/aggregator/cron/computer.go:60-61 | The number of an accepted comparison or constant always has a value. |
| `Aggregate.QueryCounterLast` | modules/aggregator/cron/query.go:21-42 | The last point in time for each joined key wins. |
| `Aggregate.KeysDistinct` | modules/aggregator/cron/query.go:38-38 | Host and counter are joined without a separator: two hosts never share a key if and only if neither name begins the other. |
| `Aggregate.OwnValues` | modules/aggregator/cron/query.go:21-42 | A host whose name neither begins nor is begun by another is given the last values of its own counters. |
| `Cluster.WorkerRun` | modules/aggregator/cron/run.go:30-172 | For all pairs of strings, hosts and points: what is pushed, if anything, for the cleaned strings; it never panics. |
| `CleanParam.BlankIsLost` | modules/aggregator/cron/run.go:200-207 | Leaving out any one blank, tab, carriage return or line feed anywhere in a string changes nothing. |
| `CleanParam.SolidStays` | modules/aggregator/cron/run.go:200-207 | A string without white space stays as it is, and none of those four is left in any. |
| `CleanParam.Clean` | modules/aggregator/cron/run.go:200-207 | The trim and the four replacements, against one function. |
| `Cluster.Accumulate` | modules/aggregator/cron/run.go:91-133 | Numerator and denominator are sums over the same hosts, those whose every computed side has a value, and validCount is their number. |
| `Cluster.PushedIsRatio` | modules/aggregator/cron/run.go:30-172 | For two printed expressions the value pushed is the ratio of their values over exactly the hosts that have every counter of both; none is pushed when no such host exists, the denominator is 0 or neither side has a counter. |
| `Cluster.ValueIsThere` | modules/aggregator/cron/run.go:135-157 | A constant side always has a value, so nothing else stops a push. |
| `Lease.FreshLeasesAreExclusive` | common/rediscluster/func.go:10-37 | Let SETNX land up to delay seconds after the clock was read, a decision come up to lag seconds after its GET, and EXPIRE up to expiry seconds after its win or never: in every run no step grants the lock while a SETNX win is fresh, if and only if timeout <= 1, or delay <= timeout + 1 and either lag <= 1 or expiry + delay + lag <= timeout + 1. |
| `Lease.DecisionsGrantNothing` | common/rediscluster/func.go:26-34 | For a positive timeout no decision on a GET ever grants the lock, if and only if EXPIRE is never lost and expiry + delay + lag <= timeout + 1; otherwise two clients can be granted it in the same second on the same value. |
| `Lease.TwoGrants` | common/rediscluster/func.go:26-34 | That run, for every other choice of the bounds. |
| `Lease.RunKeeps` | common/rediscluster/func.go:10-37 | What every run keeps about the key, its deadline, the wins and the readings. |
| `Lease.SlowSetNx` | common/rediscluster/func.go:10-16 | For every timeout above 1 and every delay above timeout + 1 there is a run in which a GET grants the lock within the timeout of a win. |
| `Lease.LateDecision` | common/rediscluster/func.go:26-34 | For every timeout and lag above 1 with expiry + delay + lag above timeout + 1 there is a run in which a client that read an old value decides after the next win and is granted the lock too. |
| `Plugins.Reconciler.DeletePlugin` | modules/agent/plugins/plugins.go:61-68 | Stops and forgets the scheduler of the key, and leaks none. |
| `Plugins.Reconciler.ClearAllPlugins` | modules/agent/plugins/plugins.go:55-59 | Stops all. |
| `Plugins.Reconciler.DelNoUsePlugins` | modules/agent/plugins/plugins.go:31-38 | Stops exactly what is not desired or has another modification time; the rest keeps its scheduler. |
| `Plugins.Reconciler.AddPlugin` | modules/agent/plugins/plugins.go:47-51 | The plugin runs under a new scheduler. |
| `Plugins.Reconciler.AddNewPlugins` | modules/agent/plugins/plugins.go:41-53 | Gives exactly the new or changed plugins a new scheduler; on its own it leaks exactly the schedulers of the changed ones. |
| `Plugins.Reconciler.Sync` | modules/agent/cron/plugin.go:97-99 | Both together leave exactly the desired keys and modification times; unchanged plugins keep their scheduler, replaced ones are stopped, none leaks. |
| `Plugins.Reconciler.HandleAnswer` | modules/agent/cron/plugin.go:53-100 | An answer that is not newer changes nothing; a newer one is followed. |
| `Plugins.Reconciler.SyncMinePlugins` | modules/agent/cron/plugin.go:44-102 | After any run of answers the newest decides what runs; schedulers started stay on record, and every one ever started is either the mapped one or stopped; none is stopped twice. |
| `Plugins.PluginScheduler.Stop` | modules/agent/plugins/scheduler.go:58-60 | Stops a scheduler that was not stopped before. |
| `Plugins.LeaksReplaced` | modules/agent/plugins/plugins.go:41-53 | What runs unmapped after adding is what did before, and the schedulers replaced. |
| `Plugins.Newest` | modules/agent/cron/plugin.go:74-81 | The answer taken last is the one with the greatest timestamp. |

## Left out

- Floating point: values are exact reals or NaN; rounding, infinities and overflow are not modelled.
- Store.GraphItemMap.PushFront: run alone; Creation has its look-up and its set as two steps, for pushes on one key without pops or removals between them. The migration protocol has them apart too, among all other steps.
- Ingest.RetriesAreHarmless: takes each item over store, index and history in one step.
- Copies.CopiesHarmlessExactly: the cached lists only. A run in which a copy of a first item sets its list over another's may end like one run (CrossedCopies) or lose items (FirstPushLost); it is not decided which. The history of crossing copies, whose test and push are apart as well, and the order of their index entries are not modelled.
- Api.Graph.Query: requires a positive step, because the source divides by the step it finds and panics on 0; MAX and MIN consolidation and windows older than the base archive return the fetched points unchanged and carry no merge guarantee.
- Api.Graph.GetLast: requires a positive step for the same reason. GetLastRaw is GetLast without the rate and is not modelled.
- Info and the RPC wrappers: not modelled.
- Api.Graph.RemoveItem: the removal of a file is a record of its name; whether files exist is a parameter of the run.
- Reads.RunIsReadPointwise: windows older than the base archive and keys with nothing cached return the fetched points as they are and are not covered.
- NetWorker.Worker.SendData: one key with nothing else running; Migration and NothingLost cover the interleavings, WorkerSteps.SendAlone joins the two. Reconnection and the reply struct shared between retries are not modelled.
- Migration.Do: one series, the new node and one old node; each locked store call, RPC and disk task is one step, on values instead of objects, because steps interleave. A call of GetRrd is three: its pop, its flush, its read. A flush takes effect when it is handed over, since the queue of a file keeps the order (see IoQueues). Whether an error satisfies os.IsNotExist is left open. The bit GRAPH_F_ERR, which the source never sets, is left out. The reply struct that retries share is not modelled.
- Migration.RunBalances: pops, restores and flag writes look the list up and act on it in one step; a delete request pops and removes the file in one.
- MigrationSafety.MissNeverReturns: runs in which an entry was removed, or replaced by a first push that crossed another, are excused, as the new entry may start with MISS again (see CrossedPushRun).
- Handover.Handover: an rrd file is the log of the items written to it; that an update skips values out of range, and partial writes, are not modelled.
- Handover.HandoverExact: that missing nothing, or starting with the history, needs the condition is for histories in which no item occurs twice; OldFileIsWhole is the count that needs no such restriction.
- Rrdtool.RrdTool.FlushRRD: which turns come too late is a parameter, and in NetWorker the timeout flag is the parameter busy of the pull task.
- Rrdtool.RrdTool.PullByKey: queues of all nodes are one sequence of tasks that name their node; the goroutine that waits for the end of a pull only counts and logs.
- IoQueues: workers, channels and tasks are values of a transition system, not goroutines; the byte content of a written file is its log.
- IoWorkers.IndexInRange: md5 is lower-case hex, as the source's own function prints it. PrefixIndex and EachServesAsMany stop below 16 digits, that is below 2^60 workers, where the 64-bit parse would overflow.
- Index: the statements of updateIndexFromOneItem and the lookups behind GetTypeAndStep are an oracle; the full index update and the timed caches are not modelled. UpdateIndexIncr runs alone, IndexUpdate has it among receivers and deletions, each of which is one step. The concurrency limit and the returned count are left out.
- History: a SafeListLimited is a sequence of at most three items.
- Tags.SortedTags: the pooled buffer is the string written to it. Sorting is specified by the result of sort.Strings on distinct keys.
- SeriesKeys: strings are sequences of characters; UTF-8 encoding is not modelled. CompressStr and the checksum functions are md5 of the keys modelled here.
- Expression: the regular expressions are written out as a grammar and its reader, Regexp.Split as a function.
- Cluster.WorkerRun: takes the host list and the answer of the last-point query as inputs; logging is left out. A decimal has its exact value; the range error of ParseFloat is not modelled.
- Lease: a transition system on values, since calls of several clients interleave within GetDisLock; one clock for all clients and Redis, in whole seconds. Errors of SETNX and GET end a call without a grant and add no step.
- Plugins.Reconciler.AddNewPlugins: requires a positive cycle, because NewTicker panics otherwise and ListPlugins lets such a cycle through. Running a plugin, and listing a directory, are not modelled.
- Agent collectors, alarm, gateway, the API modules, HTTP handlers, configuration and signals: not part of this model.
