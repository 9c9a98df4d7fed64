# nano_tick: a verified model

A Dafny model of the parts of nano_tick that carry its guarantees, and proofs of those guarantees.
`dafny verify dfyconfig.toml` checks everything. The model has five linked pieces.

**Delivery.** `sink.dfy` is the TCP sink: two queues, byte-capped eviction, cumulative acks, requeue on
reconnect, the wake-up event, as a class and as pure steps. `receiver.dfy` is the high-water-mark
consumer. `delivery.dfy` joins them through connections that die at any point and lose any tail of what
is in flight, and proves the end-to-end claims over every run.

**Bars.** `ascents.dfy`, `buckets.dfy`, `aggregates.dfy`, `bars.dfy`, `bar_bounds.dfy` and `quote_bars.dfy` hold bucketing by
floor division, the aggregates, OHLCV and quote bars, and their re-bucketing. `kdb.dfy` is the writer's
process (memory tables, date partitions, savedown) and the reader's choice between stored bars and a
scan. Prices and quantities are exact reals, times integer nanoseconds. A null float is a value of its own.

**Evaluation without leakage.** `features.dfy`, `splits.dfy`, `leakage.dfy`, `evaluation.dfy` and `pipeline.dfy`
follow a history of daily bars through features, trimming, day concatenation, null-dropping, purged
splits and the evaluation loop, up to what each fold's model is fitted on. The kernels `log`, `mdev`, `mavg`
and the model itself are arbitrary functions of what they read. `dropped_rows.dfy` is a history whose dropped
test rows change what a fold is fitted on, `reports.dfy` what the numbers of a
report say, and `experiment.dfy` the whole of an experiment.

**The writer.** `max_id.dfy` is the newest-partition id lookup, `roller.dfy` the day rollover, `bridge.dfy` REST
paging against an exchange that grows at its tip, `dedup.dfy` the per-symbol dedup, `feed.dfy` and
`feedhandler.dfy` the feed handler as a state machine and as a class, `views.dfy` what one symbol sees of it,
`ledger.dfy` and `hole_free.dfy` the hole-free store, `reconnects.dfy` a reconnect with a backlog,
`sessions.dfy` whole sessions of connections, `quote_views.dfy` what a symbol's quotes see, `served_reads.dfy`
how what is saved is read, `backfill.dfy`, `fill_summary.dfy` and `chunks.dfy` the archive fill,
`filled_archive.dfy` the step from it to the handler, `sources.dfy` what the parsers make of the three sources.

**Pacing.** `pacing.dfy` runs the client's weight estimate against the server's per-minute counter.

## Where the code and its documentation differ

Each point is proved: an exact condition, or a concrete input.

- `savedown` builds bars from `trade` in insertion order and only then sorts by time. For all prices, a stored
  bar equals the scan if and only if each minute's first and last inserted rows are its earliest and
  latest (`Bars.StoredBarsExactIff`); only open and close can differ (`Bars.FlowAlwaysAgrees`), and they do in
  `Kdb.OutOfOrderRead`.
- Coarsening stored quote bars is documented as exact. The same insertion order decides it: it is, for all
  books, if and only if each minute's last inserted quote is a latest one (`QuoteBars.StoredQuoteBarsExactIff`,
  `Kdb.OutOfOrderQuoteRead`).
- The max-id lookup reads the newest partition as if it held every symbol's maximum. It is right if and only if the
  symbol has rows in memory, in the newest partition, or nowhere (`MaxId.LookupExactIff`, `MaxId.LookupMissesOlderDay`).
  The quote floor set at the start rests on it alone (`QuoteViews.StartFloorIff`).
- The re-bridge flag is documented to survive stale backlog. It survives replays, but new records that were
  still queued at the reconnect clear it: no hole if and only if none were queued or the new connection
  leaves no gap after them (`Reconnects.BacklogClearsFlag`, `Reconnects.LostGapLeavesHole`).
- The two-run claim about test data holds if and only if both tables have the same fold width: rows dropped in the test period
  move the fold boundaries (`Leakage.NoTestDataReachesTraining`, `DroppedRows.DroppedTestRowsMoveTraining`).
- The pacer is documented to keep a run under the cap. A 404 is returned before its headers are read, which is
  harmless, since it ends the paging. But each bridge makes a pacer that starts at zero, so the bound holds for every
  run if and only if the server's count was below the threshold when the bridge began
  (`Pacing.FreshPacerBoundIff`), and it rests on the headers being there (`Pacing.NoBoundWithoutHeaders`).
- A fetch that fails after yielding chunks leaves rows in memory, which the next savedown writes under its
  own day (`Backfill.SavedDayPureIff`, `Backfill.BrokenFetchPollutesNextDay`).
- A savedown replaces its partition (`Roller.SavedownKeepsStoredIff`).

## Model

| member | source | states |
|---|---|---|
| Sink.TcpSink.constructor | ingest/src/sinks/tcp.py:36-55 | the empty sink satisfies the invariant |
| Sink.TcpSink.Send | ingest/src/sinks/tcp.py:73-89 | the sink afterwards keeps the longest suffix of old contents plus the new entry whose lines, with 120 bytes for each, fit the cap; the loop ends and pops no empty queue |
| Sink.TcpSink.EvictLoopBody | ingest/src/sinks/tcp.py:79-88 | one pass drops the oldest entry, written ones first, and nothing else |
| Sink.TcpSink.Requeue | ingest/src/sinks/tcp.py:102-105 | the reversed left-extension puts the unacked entries, in order, before the unsent ones |
| Sink.TcpSink.WriteOne | ingest/src/sinks/tcp.py:139-141 | the head moves to the unacked queue and its line is what is written |
| Sink.TcpSink.ReceiveAck | ingest/src/sinks/tcp.py:164-166 | the ack loop reaches the specified state and leaves nothing at or below the ack unacked |
| Sink.SendExact | ingest/src/sinks/tcp.py:73-89 | a send keeps byte accounting, the contiguous run up to the next number, and evicts the fewest oldest entries, measured in line bytes plus 120 for each |
| Sink.EvictedPrefix | ingest/src/sinks/tcp.py:79-82 | eviction removes exactly a prefix of the buffer, counts it as dropped, and ends within the cap |
| Sink.EvictFewest | ingest/src/sinks/tcp.py:79-82 | with one eviction fewer the buffer would exceed the cap |
| Sink.RequeueValid | ingest/src/sinks/tcp.py:102-103 | the requeue keeps the contiguous ascending run and all accounting, and sets the event if anything is queued |
| Sink.AckExact | ingest/src/sinks/tcp.py:164-166 | a cumulative ack retires exactly the written entries at or below it, never an unsent one |
| Receiver.Subscriber.constructor | tools/receiver.py:32-35 | nothing seen |
| Receiver.Subscriber.OnMessage | tools/receiver.py:44-58 | malformed, duplicate and new messages each have their whole effect on marks, counters and output |
| Receiver.MessageMovesOneView | tools/receiver.py:53-57 | a message moves only its own key's mark and log |
| Receiver.MarkIsRunningMax | tools/receiver.py:53-56 | a key's mark is the greatest id seen for it, or -1 |
| Receiver.HandsOnExactlyTheRecords | tools/receiver.py:53-58 | message i is handed on if and only if its id exceeds every earlier one of its venue and symbol |
| Receiver.CountsAndOutput | tools/receiver.py:53-58 | what is handed on is the records of each venue and symbol in order; `received` counts them, and with `duplicates` all messages that parse |
| Delivery.StepKeeps | ingest/src/sinks/tcp.py:73-166 | every step of sink, wire and consumer keeps the end-to-end invariant |
| Delivery.AtLeastOnce | ingest/src/sinks/tcp.py:26-29 | after any run: the consumer's log strictly ascends, every number up to its mark is logged or was evicted, and with empty queues every number ever sent is |
| Delivery.Conservation | ingest/src/sinks/tcp.py:75-82 | every number issued is exactly one of acknowledged, evicted and buffered and no other number is any of them; `dropped` is the number of evicted ones, and the buffer a contiguous run ending at the last issued |
| Delivery.CapHolds | ingest/src/sinks/tcp.py:31-33 | over every run the bytes of the buffered lines, and 120 for each, never exceed the cap |
| Delivery.NumbersCarryTheirLines | ingest/src/sinks/tcp.py:75-76 | over every run the entry buffered under a number holds the line of that call of send |
| Delivery.SenderNeverStuck | ingest/src/sinks/tcp.py:134-138 | in no reachable state does the send loop sleep on a non-empty queue without its event set |
| Delivery.IdleSleeps | ingest/src/sinks/tcp.py:135-138 | a send loop that finds nothing sleeps until the next send or connection |
| Delivery.ExactlyOnceBelowCap | ingest/src/sinks/tcp.py:31-33 | if everything ever sent fits the cap, nothing is evicted and the log is exactly 1, 2, and so on to the mark; once both queues are empty, to the last number sent |
| Delivery.CanAlwaysDrain | ingest/src/sinks/tcp.py:91-131 | from every reachable state a run without further sends empties both queues |
| Buckets.XbarMeaning | platform/analytics.q:23-23 | a time's bucket is the multiple of the width at or below it, less than a width away |
| Buckets.GroupByMeaning | platform/analytics.q:18-24 | grouping gives ascending aligned buckets, one for every row, each aggregating the rows whose time lies in it |
| Buckets.XbarNests | platform/analytics.q:35-35 | bucketing by the base width and then by a multiple is bucketing by the multiple |
| Buckets.CoarseGroupIsItsParts | platform/analytics.q:30-35 | in time order a coarse group is the concatenation of its base groups |
| Buckets.NestedKeys | platform/analytics.q:35-35 | re-bucketing gives the buckets of direct bucketing |
| Buckets.GroupsHoldEveryRow | platform/analytics.q:23-23 | every row is in exactly one bucket's group, whatever the table's order |
| Buckets.SortMeaning | platform/schema.q:119-119 | the sort orders by time and keeps every row |
| Buckets.SortIsStable | platform/schema.q:119-119 | rows of one time keep their order |
| Bars.BarMeaning | platform/analytics.q:18-24 | first and last price, attained extremes, trade count; buy volume is the quantity of the trades whose buyer was not the maker, sell volume that of the rest; vwap times volume is their value; imbalance is 1 or -1 if and only if all quantity is on that side |
| Bars.ScannedBarMeaning | platform/analytics.q:18-24 | the same of every bar of a scan and the trades within its time |
| Bars.BarsConserveTrades | platform/analytics.q:18-24 | over all bars, trade counts, volumes and notionals add up to those of all trades |
| Bars.BarsCompose | platform/analytics.q:27-35 | aggregating the bars of consecutive groups is aggregating their trades, in all ten columns |
| Bars.RebucketExact | platform/analytics.q:30-35 | re-bucketed base bars equal direct bars, every bucket and column, for trades in time order |
| Bars.FlowAlwaysAgrees | platform/schema.q:128-134 | whatever the insertion order, every column but open and close of a stored-bar read equals the scan's |
| Bars.EndsInOrderAgrees | platform/schema.q:164-172 | the stored-bar read equals the scan when each minute's first and last inserted rows are its earliest and latest |
| Bars.StoredBarsExactIff | platform/schema.q:164-172 | and that condition is necessary, over all prices |
| BarBounds.BuiltBarSane | platform/analytics.q:11-24 | low <= open, close, vwap <= high; buy and sell volume add up; imbalance within [-1,1]; nulls exactly at zero volume |
| BarBounds.RebucketKeepsSane | platform/analytics.q:30-35 | re-bucketing any sane bars gives a sane bar |
| BarBounds.ServedBarsSane | platform/analytics.q:39-46 | every bar served, direct or re-bucketed, is sane |
| QuoteBars.RebucketQuotesExact | platform/analytics.q:70-79 | re-bucketed quote bars equal direct ones with all derived columns |
| QuoteBars.DeriveMeaning | platform/analytics.q:56-68 | mid is half way, micro divides the spread as the sizes do, qimb is the size difference per unit of size, null exactly without size |
| QuoteBars.ScannedQuoteBarMeaning | platform/analytics.q:62-68 | every quote bar of a scan holds the book of the last quote within its time, and the columns derived from it |
| QuoteBars.RebucketedAreDerived | platform/analytics.q:73-79 | every re-bucketed one has the columns derived from its own book |
| QuoteBars.LastsInOrderAgree | platform/schema.q:139-142 | and that condition suffices for the quotes at hand, in every column |
| QuoteBars.StoredQuoteBarsExactIff | platform/schema.q:67-71 | for all books and widths, re-bucketed stored quote bars equal the scan if and only if each base bucket's last inserted quote is a latest one |
| QuoteBars.FeatureBounds | platform/analytics.q:55-68 | micro lies in [bid, ask] and qimb in [-1,1] |
| QuoteBars.ServedQuoteBarsSane | platform/analytics.q:87-90 | every quote bar served, direct or re-bucketed, keeps those bounds |
| Kdb.OfSymSorted | platform/schema.q:119-120 | sorting the table sorts each symbol's slice |
| Kdb.SavedownWrites | platform/schema.q:167-174 | a savedown clears memory and writes exactly the day's slices and bars of tables with rows |
| Kdb.SavedSlices | platform/schema.q:167-174 | what it writes for one symbol |
| Kdb.FastPathRefinesScan | platform/analytics.q:43-46 | after a savedown the bar read through stored bars equals the trade scan at any multiple of the base width |
| Kdb.InOrderEnds | platform/analytics.q:39-46 | rows in time order meet its condition |
| Kdb.OutOfOrderRead | platform/schema.q:167-172 | two trades of a minute inserted out of order and saved: the served bar has open and close the wrong way round, the scan does not |
| Kdb.QuoteFastPathRefinesScan | platform/analytics.q:87-90 | the same for quote bars |
| Kdb.OutOfOrderQuoteRead | platform/schema.q:167-173 | and with two quotes the served bar holds the earlier book |
| Kdb.EveryReadHasScanFlow | platform/analytics.q:43-46 | in every reachable store, every day, symbol and width: buckets, sums and extremes of the read are the scan's |
| Kdb.ServedBarMeaning | platform/analytics.q:39-46 | so in every reachable store counts, volumes, sides, weighted price and extremes of every bar served are those of the stored trades within its time |
| Kdb.StampMeaning | platform/schema.q:81-83 | timestamps count nanoseconds from 2000-01-01, and a stored bar is one UTC minute |
| Kdb.Process.InsertTrades | platform/schema.q:88-90 | rows are appended with converted times and counted |
| Kdb.Process.InsertQuotes | platform/schema.q:93-95 | the same for quotes |
| Kdb.Process.SavedownDay | platform/schema.q:167-174 | the step-by-step savedown reaches the specified store and clears memory |
| MaxId.LookupExactIff | resources/backfill.py:152-165 | the lookup returns the true maximum over memory and all partitions if and only if the symbol is in memory, in the newest partition, or nowhere |
| MaxId.LookupMissesOlderDay | resources/backfill.py:159-165 | a reachable store with a symbol on day 1 and only another on day 2: the lookup says the first has nothing |
| MaxId.InsertKeepsRise | resources/backfill.py:152-165 | for trades and quotes alike: inserts above the maximum keep ids rising with day and into memory |
| MaxId.SavedownKeepsRise | platform/schema.q:167-174 | saving to a later day keeps trade ids rising |
| MaxId.SavedownKeepsQuotesRise | platform/schema.q:167-174 | and quote ids |
| MaxId.Newest | resources/backfill.py:81-93 | the greatest day holding the table |
| Roller.RdbRoller.RollTo | resources/backfill.py:198-208 | saves the current day exactly when a later one comes, and never moves back |
| Roller.RdbRoller.FeedTrades | resources/backfill.py:210-213 | rolls by the chunk's last row, then inserts |
| Roller.RdbRoller.FeedQuotes | resources/backfill.py:215-218 | the same for quotes |
| Roller.RdbRoller.FlushDay | resources/backfill.py:220-226 | saves the current day, if any, and forgets it |
| Roller.RolloverConserves | resources/backfill.py:182-226 | over every run: saved days strictly increase, older partitions stay, and every row inserted is in memory or in exactly one saved partition |
| Roller.FlushConserves | resources/backfill.py:220-226 | after the final flush every row is in exactly one partition, and a second flush does nothing |
| Roller.RowsNeverLandEarly | resources/backfill.py:187-208 | over every run, bridges and disordered chunks included: a row in memory or in a saved partition is of no later day than the one it is or will be filed under, unless it came from a bridge or a disordered chunk |
| Roller.DayMeaning | resources/backfill.py:178-179 | days are counted from 1970 and change at UTC midnight, where a new stored bar begins too |
| Roller.SavedownKeepsStoredIff | platform/schema.q:120-120 | a savedown keeps a symbol's stored rows if and only if memory is empty or holds a copy of every row it replaces; with none in common, if and only if the partition had none |
| Bridge.BridgeExact | resources/backfill.py:369-382 | if the loop ends, the rows inserted are, ascending, exactly the exchange's from the first missing id to the target or the last tip seen |
| Bridge.EveryPrefixExact | resources/backfill.py:369-382 | after every number of pages, so also when a request raises half way, they are exactly the exchange's ids from the first missing one to where the loop stands |
| Bridge.HonestEnds | resources/backfill.py:371-382 | the loop ends against any exchange that grows at its tip, up to a target or while its ids are bounded |
| Bridge.BridgeFillsGap | resources/backfill.py:355-358 | when REST serves every id below the target, exactly the missing ids are inserted, one each |
| Bridge.BridgeReachesTip | resources/backfill.py:352-353 | without a target the ids inserted are consecutive from the first missing one, and every trade from there on that the last request could see is among them |
| Bridge.PageAdvances | resources/backfill.py:375-380 | every non-empty clipped page moves the start forward and stays below the target |
| Bridge.PageFrom | resources/backfill.py:369-382 | a loop that ends inserts its pages; each pass keeps what is inserted exact |
| Bridge.BridgeSymbol | resources/backfill.py:365-384 | the store and the result of a bridge that ends; without a stored id nothing is fetched |
| Dedup.KeepFresh | resources/feedhandler.py:87-95 | the loop over the sorted batch keeps each id above the last kept |
| Dedup.BatchKeepsFirstArrivals | resources/feedhandler.py:87-95 | a batch keeps the first arrival of each id above the floor, once, ascending, whatever the order of arrival |
| Dedup.RisingBatch | resources/feedhandler.py:87-95 | on a rising feed a batch keeps what one-by-one processing keeps |
| Dedup.CutsDoNotMatterIff | resources/feedhandler.py:126-135 | every cutting of a feed into batches stores the same records if and only if each id is at or below the floor, a repeat, or above every earlier one |
| Feed.BySymbol | resources/feedhandler.py:97-104 | groups in first-appearance order, each the symbol's records in order |
| Feed.OrderMeaning | resources/feedhandler.py:101-104 | every symbol present is listed once |
| Feed.OrderOfAppearance | resources/feedhandler.py:101-104 | and in the order of its first record |
| FeedHandlers.FeedHandler.constructor | resources/feedhandler.py:30-49 | a new handler: nothing seen, nothing pending |
| FeedHandlers.FeedHandler.OnConnect | resources/feedhandler.py:53-63 | a reconnect flags all tracked symbols, the first connect none |
| FeedHandlers.FeedHandler.OnMessage | resources/feedhandler.py:66-83 | well-formed records are queued, or counted as dropped when the queue is full |
| FeedHandlers.FeedHandler.MaybeRebridge | resources/feedhandler.py:137-151 | bridges a gap before the first new id, reloads the last id, and clears the flag when anything is new; for a bridge that ends |
| FeedHandlers.FeedHandler.KeepGroup | resources/feedhandler.py:111-114 | the floor advances and what is fresh is fed through the roller |
| FeedHandlers.FeedHandler.ApplyTrades | resources/feedhandler.py:106-115 | the loop over groups reaches the state machine's state, if the bridges it calls for end |
| FeedHandlers.FeedHandler.ApplyQuotes | resources/feedhandler.py:117-125 | the same for quotes |
| FeedHandlers.FeedHandler.Drain | resources/feedhandler.py:127-135 | the batch and the remaining queue are the old queue; the batch is full or the queue empty |
| FeedHandlers.FeedHandler.Turn | resources/feedhandler.py:173-180 | one turn of the main loop reaches the state machine's state, likewise |
| FeedHandlers.FeedHandler.CatchUpSymbols | resources/feedhandler.py:160-165 | the start-up catch-up, then every symbol flagged, likewise |
| FeedHandlers.FeedHandler.Shutdown | resources/feedhandler.py:187-191 | the roller is flushed |
| FeedHandlers.HonestGroupsEnd | resources/feedhandler.py:106-115 | with honest endpoints every bridge a turn calls for ends |
| Views.GroupsView | resources/feedhandler.py:106-115 | in a turn only a symbol's own group changes its floor, flag and stored rows |
| Views.DrainOrderDoesNotMatter | resources/feedhandler.py:127-180 | however receipts and turns interleave, a drained handler has stored, per unflagged symbol, the first arrival of each id above the floor, once, ascending |
| Views.TurnStoresFirstArrivals | resources/feedhandler.py:106-115 | whatever the order within a turn, it stores of an unflagged symbol the first of each id above the floor, once, ascending, and moves the floor to the last stored |
| Views.TradesBeforeQuotes | resources/feedhandler.py:177-180 | a turn stores all its trades, bridged ones included, before its quotes |
| Reconnects.FlaggedOrderDoesNotMatter | resources/feedhandler.py:127-180 | and per flagged symbol, if the first record kept leaves no gap |
| QuoteViews.QuoteOrderDoesNotMatter | resources/feedhandler.py:117-135 | the same for every symbol's quotes, over reconnects and bridges too |
| QuoteViews.TurnStoresFirstQuotes | resources/feedhandler.py:117-125 | the same for quotes |
| QuoteViews.StartFloorIff | resources/feedhandler.py:160-165 | after the catch-up a symbol's quote floor is its greatest stored update id if and only if the newest partition with quotes holds the symbol, or none does |
| QuoteViews.QuotesFromStart | resources/feedhandler.py:160-180 | from there every drained run stores the first arrivals, ascending, of exactly the ids above every one stored before |
| Ledgers.SavedownKeepsTop | platform/schema.q:167-174 | a savedown to a later day keeps the greatest stored id |
| Ledgers.FeedKeepsLedger | resources/backfill.py:210-213 | feeding rows that follow on keeps a symbol's ids consecutive and its greatest id known |
| HoleFree.ConnectionSuffix | resources/feedhandler.py:127-135 | what follows a processed part of a connection is still one, seen from the new floor and flag |
| HoleFree.GapClosed | resources/feedhandler.py:147-150 | the re-bridge fills the gap exactly, and the reload finds the id just below the first new one |
| HoleFree.OwnGroup | resources/feedhandler.py:106-115 | a connection's group moves the ledger to its highest id, bridging when needed |
| HoleFree.WorkKeepsInv | resources/feedhandler.py:173-180 | a turn keeps the invariant, with the other symbols and quotes interleaved |
| HoleFree.RunKeepsInv | resources/feedhandler.py:53-180 | every run of connects, receipts and turns keeps it, reconnects with anything queued included |
| HoleFree.NoHolesEver | resources/feedhandler.py:160-182 | from an archive through catch-up and any run: stored ids above the floor are consecutive, each stored exactly once, and the handler's floor is the greatest stored id |
| Sessions.EveryGapIsClosed | resources/feedhandler.py:53-180 | from the catch-up through any number of connections, each of which may begin after any gap, conditions on the streams alone: the same conclusion |
| Sessions.QueueConserves | resources/feedhandler.py:66-83 | over every run the queue is first in, first out, holds at most 200,000, gives up to 5,000 a turn, and every record received is taken, queued or counted as dropped |
| ServedReads.SavedAreServedExactly | platform/analytics.q:39-46 | over every roller run: partitions of a symbol whose rows came in time order are served through stored bars exactly as a scan would, trades and quotes, at every multiple |
| ServedReads.HandlerServesExactly | resources/feedhandler.py:160-191 | and so over every hole-free handler run, the shutdown flush included, if times do not fall as ids rise |
| Reconnects.BacklogClearsFlag | resources/feedhandler.py:137-151 | a reconnect with records still queued, then any interleaving of receipts and turns, replays on both sides: no hole if and only if nothing queued was new or the new connection leaves no gap after it |
| Reconnects.BacklogLosesGap | resources/feedhandler.py:137-151 | with a new record queued and no gap before it, the run stores exactly the first arrivals, and so leaves the skipped ids out, whatever REST would serve |
| Reconnects.LostGapLeavesHole | resources/feedhandler.py:53-60 | a run from an empty store that ends with ids 1, 2 and 5, with the backlog taken in a turn of its own or together with the new record |
| Backfill.PlannedDistinct | resources/backfill.py:33-36 | the planned days are distinct and are those before today |
| Backfill.RunBackfill | resources/backfill.py:263-301 | the store, the history of savedowns and the summary after the nested loops; `written` counts the savedowns |
| FillSummary.SummaryMeaning | resources/backfill.py:278-301 | every day not present is fetched for every symbol, each fetch is counted as missing, failed or complete, and `rows` are those of the complete ones |
| Backfill.FetchDay | resources/backfill.py:284-297 | one day's fetches, complete, missing or failed part way |
| Backfill.LeftoverIff | resources/backfill.py:284-300 | a fill leaves memory empty if and only if no fetch broke off since the last day saved and, when none was, memory began empty |
| Backfill.SavedDayPureIff | resources/backfill.py:279-300 | a saved day holds exactly its own rows if and only if that holds of the days before it and none of its own fetches broke off |
| Backfill.CleanFillIsPure | resources/backfill.py:270-272 | with clean fetches every day saved holds exactly its rows for every symbol |
| Backfill.RerunRewritesNothing | resources/backfill.py:280-282 | a later fill over the days then present rewrites none of them |
| Backfill.SavedOnce | resources/backfill.py:279-300 | the fill saves each missing day with a complete fetch exactly once, and no other day |
| Backfill.BrokenFetchPollutesNextDay | resources/backfill.py:291-299 | a fetch broken off on one day is saved under the next |
| Chunks.IterTradeChunks | resources/binance.py:43-67 | the streaming loop yields consecutive full chunks and the remainder |
| Chunks.SplitJoins | resources/binance.py:43-67 | the chunks concatenate to the file's trades, for every size |
| Chunks.SplitShape | resources/binance.py:60-67 | no chunk is empty or too long, and only the last may be short |
| Chunks.ChunkSizes | resources/binance.py:60-67 | streamed with any chunk size, every chunk but the last has that many rows, or one if it is below one |
| Chunks.FillIgnoresChunkSize | resources/backfill.py:304-315 | the filled store and the days saved do not depend on the chunk size |
| Sources.SameRowFromEverySource | resources/binance.py:23-99 | a trade told by archive, REST or live feed, in milliseconds or microseconds, is stored as the same row: itself at its millisecond |
| Sources.QuoteIsStoredAsSent | resources/binance.py:102-115 | a live quote likewise |
| FilledArchive.FillMakesArchive | resources/backfill.py:318-338 | a clean fill of days whose ids rise with the day leaves an empty memory and a store that meets the handler's starting condition |
| Features.LoadFeatures | resources/experiment.py:45-64 | the usable days' rows in order, or failure when there are none |
| Features.PositionsMeaning | platform/analytics.q:107-114 | every row is computed at a bar past the warm-up whose label window lies in its own day, in time order |
| Features.LabelMeaning | platform/analytics.q:113-113 | every label is the most profitable of short, flat and long after costs, flat on a tie: not flat if and only if the return exceeds the cost either way |
| Features.RowMeaning | platform/analytics.q:107-114 | row i is bar w + i, with the return from the bar before, the mid's return over h bars, and rolling columns over exactly the w bars ending there |
| Features.LabelFollowsMid | platform/analytics.q:112-113 | a long label means a higher mid h bars later, a short one a lower |
| Features.SpacingInDay | resources/evaluation.py:76-76 | dropping rows never brings two rows closer in position than in bars |
| Splits.WalkForwardSplits | resources/evaluation.py:33-62 | the loop and its three errors |
| Splits.SkippedFoldsArePrefix | resources/evaluation.py:58-60 | the skipped folds come first |
| Splits.SurvivingFold | resources/evaluation.py:55-61 | a surviving fold trains on a prefix, horizon + embargo + 1 rows before its test block |
| Splits.SplitStructure | resources/evaluation.py:36-44 | test blocks are disjoint, ordered and tile a suffix; training sets strictly grow |
| Splits.BlocksAreEven | resources/evaluation.py:50-57 | all stretches are equally long but the last, which takes the remainder |
| Leakage.PurgeSurvivesDropping | resources/evaluation.py:58-61 | for any days and any dropped rows no training label window reaches its fold's first test bar |
| Leakage.PurgeIsTight | resources/evaluation.py:58-58 | on one full day the windows are clear if and only if horizon plus embargo covers the label horizon |
| Leakage.TrainingRowsFixed | platform/analytics.q:104-106 | agreement before the first test row fixes every training row's place, features and label |
| Leakage.NoTestDataReachesTraining | resources/evaluation.py:164-172 | and the whole training set, if and only if both tables have the same fold width |
| Leakage.NullFreeTrainingFixed | resources/evaluation.py:164-172 | for null-free histories of one shape the training set is fixed outright |
| DroppedRows.DroppedTestRowsMoveTraining | resources/evaluation.py:164-172 | losing the quotes of the last two of ten bars takes a row from the training set of a fold that is fitted in both cases |
| Pipeline.MatrixIsKeptRows | resources/evaluation.py:67-80 | the feature matrix is, row by row, the complete rows of the concatenated days |
| Pipeline.DefaultMatrix | resources/evaluation.py:67-80 | with the default features it keeps exactly the rows without a null among the eight and the forward return, and holds them in order |
| Pipeline.FitsOnTrainingSet | resources/evaluation.py:166-171 | what a fold's model is fitted on is that training set |
| Pipeline.ModelIgnoresTheFuture | resources/evaluation.py:164-172 | so two histories that agree before the first test row give the same fitted predictions, at equal fold width |
| Evaluation.ComputeBalancedAccuracy | resources/evaluation.py:91-95 | the recall loop averages recall over the classes present |
| Evaluation.LazyPredictorScoresChance | resources/evaluation.py:85-87 | always answering one class scores one over the number of classes, or zero |
| Evaluation.Evaluate | resources/evaluation.py:144-190 | the evaluation loop's report, and its errors |
| Evaluation.SharpeUndefinedIff | resources/evaluation.py:115-121 | the Sharpe ratio is undefined if and only if there is no row or all net returns are equal |
| Reports.MetricsMeaning | resources/evaluation.py:85-122 | every report entry: net return is that of rows predicted above zero less that of rows below, less cost per row acted on; wins are the longs whose return exceeds the cost and the shorts whose loss does; hits, rates, mean and variance likewise |
| Reports.AccuracyIsWeightedRecall | resources/evaluation.py:85-96 | accuracy is the mean recall weighted by class size, where balanced accuracy is the plain mean |
| Reports.SkippedIff | resources/evaluation.py:168-170 | a fold is skipped if and only if its training labels are all the same |
| Reports.PooledRows | resources/evaluation.py:171-187 | the pooled entry compares predictions of the tested rows, in order, with those rows' own labels and returns |
| Reports.FoldEntries | resources/evaluation.py:171-181 | and every fold's entry its own test rows, with its training size |
| Reports.PooledCoversSuffix | resources/evaluation.py:164-187 | when no fold is skipped those are a suffix of the rows, each once |
| Reports.ReportedSizesGrow | resources/evaluation.py:174-178 | the training sizes reported are those of folds and strictly grow |
| Experiments.RunExperiment | resources/experiment.py:144-149 | days are loaded and evaluated with one horizon for labels and splits, or the load fails |
| Experiments.ReportMeaning | resources/evaluation.py:164-187 | the report's pooled entry is over test rows of that matrix, and each fold's predictions come from a model given exactly that fold's training set of the two-run statements |
| Evaluation.PooledAgreesWithFolds | resources/evaluation.py:164-190 | pooled counts and net return are sums over folds, pooled accuracy the weighted mean, usable plus skipped folds all the splits |
| Pacing.WeightPacer.constructor | clients/binance.py:47-53 | the threshold is the scaled limit, at least one |
| Pacing.WeightPacer.Observe | clients/binance.py:55-63 | the estimate becomes the reported weight, or stays |
| Pacing.WeightPacer.Throttle | clients/binance.py:65-74 | sleeps exactly at or over the threshold, into a later minute, and resets |
| Pacing.SleepLandsLater | clients/binance.py:70-73 | the sleep is to one second past the next minute boundary, and ends in a later minute however much longer it takes |
| Pacing.GetWith | clients/binance.py:77-116 | the request loop with its two budgets; a body may be lost after its headers were read |
| Pacing.GetAttempts | clients/binance.py:88-91 | at most retries + RATE_LIMIT_RETRIES - 1 requests per call |
| Pacing.CallSucceedsIff | clients/binance.py:77-116 | a call returns if and only if a success or a 404 comes before its errors and losses reach `retries` and its rate-limit answers ten, counted apart, and it returns that answer |
| Pacing.CallKeepsWaits | clients/binance.py:104-109 | a call lasts at least as long as the server asked it to wait, each wait up to two minutes |
| Pacing.CountBound | clients/binance.py:35-45 | in every run each request leaves the minute's count at most threshold - 1, or what the minute began with, plus W for each request since the last read count |
| Pacing.WeightBound | clients/binance.py:35-45 | with every header read, a pacer that starts level with the server keeps it at threshold - 1 + retries * W, a 404 ending the run |
| Pacing.BoundAttained | clients/binance.py:90-114 | and that bound is attained |
| Pacing.FreshPacerBoundIff | resources/backfill.py:363-364 | the fresh pacer of a bridge keeps the bound in every run if and only if the server's count was below the threshold when the bridge began |
| Pacing.NoBoundWithoutHeaders | clients/binance.py:58-63 | without the headers a bridge passes any bound within one minute |

## Left out

- MqttSink, sockets, asyncio tasks, paho, websockets, urllib, zip, CSV and JSON decoding, checksums: events or record sequences chosen by the environment stand for them.
- Floating-point rounding, sklearn models and the imbalance alpha. The Sharpe ratio is reported as its mean and variance, without taking the root.
- The columns `venue` and `eventTime`, the symbol enumeration, and the order of symbols inside a partition.
- `prune`, recorder files, the dashboard, report formatting, command lines, environment configuration, normalisers, URL builders, whole-day VWAP, counts and the as-of join.
- A restart within a day, and rows bridged into another day's partition: `Roller.RolloverConserves` and `HoleFree.NoHolesEver` start from empty memory and days without partitions.
- Exceptions inside a feed-handler turn (a REST failure, a kdb error) and a network callback in the middle of a turn: a turn is one step.
- A missing feature column (the KeyError of `feature_matrix`): the requested columns exist.
- Sequence numbers, ids and counters are unbounded integers, as in Python; kdb's 64-bit longs are not wrapped.
- A count below zero in the final row selection of `featuresOf` is read as no rows, and a horizon beyond the table as q's error.
- A lost request that the server counts only after the client has moved on, and other clients on the same address.
- The cap in `Delivery` is a natural number: a negative cap makes the source pop an empty deque.
- A paging loop that never ends: `Bridge.PageFrom`, `Bridge.BridgeSymbol` and the feed handler's methods require the bridges they run to end, which `Bridge.HonestEnds` and `FeedHandlers.HonestGroupsEnd` show of every honest endpoint.
