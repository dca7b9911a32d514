# Verification of the C++ trading engine's stateful core

A Dafny model of the C++17 engine under `cpp/`, with proofs about it: the limit order book and its sweep
arithmetic, the order manager and the pre-trade gate, the write-ahead journal with recovery and startup
reconciliation, the lock-free queue between the two threads, and the kernels they rest on (latency buckets,
CRC-32, average-cost accounting, the moving-average windows).

`dafny verify dfyconfig.toml` checks everything.

## How it is built

Each stateful part is modelled twice. A plain specification says what it means: a book is two price-time queues
of orders, the order manager a map of records, recovery a fold over records. A class with the program's own
fields (level array, slab and free list, id table, bitmap, retired ring, running sums) then does what the
program does, step by step, and every method is proved to move the class's abstract value exactly as the
specification says. The properties of whole histories are lemmas about the specification.

- **Order book.** `BookSpec` is the plain book and `BookLaws` its laws over every run: never crossed, priority,
  conservation, trades in queue order. `SweepCost` has the cost of sweeps, `PriceGrid` the price grid. From the
  bottom up, `BookSlab` has nodes and linked lists, `BookMoves` what one link change does to the whole slab,
  `BookFlat` levels joined into a queue, `BookCore` and `BookOps` whole states against plain operations, and
  `BookDepth` the walk of the depth report. `LevelBitmaps` and `IdTables` are the bitmap and the hash index.
  `OrderBooks` is the class; its `Replay` is the refinement over any flow of operations.
- **Order manager.** `OmsSpec` is the state machine, `OmsLaws` what one operation keeps, `OmsRuns` whole
  histories, `OmsSlots` the slot pool and the retired ring, `OrderManagers` the class.
- **Risk and engine.** `RiskSpec` and `RiskManagers` are the gate, `Dispatching` and `EngineSpec` the trading path
  without latency, `Engines` the class, `Markets` the same path against live books. Under latency, `InFlight` says
  what a flight of orders can come to, `FlightRuns` what every run keeps, `FlightGross` the same for the gross limit,
  `FlightFailures` has the failing runs, and `Wires` is the queue that holds orders back.
- **Journal.** `JournalSpec` and `Journals` are the file and recovery. `CrashSafety` has what a stop after any step
  leaves, `JournalFile` what a run writes append by append, `EngineRuns` what whole sessions write, `LostRecords`
  what recovery finds when appends fail, and `LossyRuns` that over whole runs under latency. `Crc32`, `Reconciling`.
- **Queue.** `SpscRing`: a slot write and its publication, a slot read and its release are separate steps; a
  refresh of a cached index may return any value between the old cache and the real index.
- **Kernels.** `LatencySpec`, `LatencyHistograms`, `PnlSpec`, `PaperVenues`, `Crossover`, `Words`, `Arith`.

## Where the code does less than its text says

Each of these is proved with its exact condition, and with a concrete failing case where one is needed.

- Adopting an order does not check that filled and leaves add up to its quantity. A working order's exposure
  survives every fill if and only if they do, or leaves and quantity - filled are both at most one
  (`FillsKeepExposureIff`, `AdoptedPartsExposure`).
- The kill switch stops orders only while limits are enabled (`HaltIsSticky`).
- Reopening a journal numbers on from the count of readable records, so that a restart never looks like a loss.
  That holds if and only if the last record's number is that count; one failed write before breaks it
  (`RestartShowsNoGapIff`, `RestartAfterFailedWrite`).
- The price grid is anchored at the first tradeable price if and only if the band starts at zero or above, or on
  the grid; the book then has a slot for every price of the grid inside the band, and otherwise misses the lowest
  (`GridBaseIff`, `BandIsTheGridIff`).
- The latency header promises about 3%; a report lies less than one sixteenth above its sample, comes within
  one of a sixteenth in every octave, and passes three percent at 64 (`ReportBound`, `SixteenthApproached`,
  `ThreePercentIsPassed`).
- A comment says the book's index is rebuilt at twice its live size; the code takes at least four times
  (`InsertGrowing`).
- The gate nets what is in flight, so an accepted order can still pass the limit when the opposite one that made
  room for it fills nothing. A flight is sure to keep to the limit if and only if each side alone does, counting
  what is held, what is booked, and what has timed out but may still fill; a sender can ask that before each order
  (`GateLetsItPass`, `EveryFlightIff`, `SendingKeepsWithinIff`, `AskingFirstIsEnough`). The gross limit is passed in
  the same run and has its own exact condition (`GrossIff`, `SendingKeepsGrossIff`, `AskingForGrossIsEnough`).
- The timeout sweep takes an order off the books while it can still fill. What is held and booked is then enough to
  ask only while a timeout stops trading, the default, and nobody releases the stop
  (`BooksAreEnoughWhileTimeoutsHalt`, `BooksForgetTheLate`).
- dispatch() submits an order even when its intent could not be written, so the write-ahead promise has an exact
  condition (`StillRecoverableIff`), and recovery notices only losses between two records that were written
  (`GapsShowLosses`).
- The drawdown check reads the equity of the symbol that just traded, which holds every other symbol at cost. It is
  the account's equity if and only if the other symbols' unrealized profits cancel out (`EquityIsTotalIff`,
  `LossElsewhereUnseen`).
- Flattening ends a position if and only if its book can supply it whole at a usable price (`FlattenEndsIff`).
- An order expired by the timeout sweep before it lands gets no cancel, and recovery then reports it open if and
  only if the venue left something of it unfilled (`ExpiredBeforeLanding`, `CrashAnywhere`).

## Model

| member | source | states |
|---|---|---|
| LevelBitmaps.WithBitAgrees | cpp/src/order_book.cpp:45-51 | Setting a bit leaves the three tiers agreeing and adds exactly that level to the set they stand for. |
| LevelBitmaps.WithoutBitAgrees | cpp/src/order_book.cpp:53-61 | Clearing a bit, early returns and all, leaves the tiers agreeing and removes exactly that level. |
| LevelBitmaps.TiersAreWords | cpp/src/order_book.cpp:33-61 | Every word of every tier stays below 2^64. |
| LevelBitmaps.HighestIsMaximum | cpp/src/order_book.cpp:73-78 | Taking the highest digit tier by tier reaches a bit that no set bit exceeds. |
| LevelBitmaps.LowestIsMinimum | cpp/src/order_book.cpp:80-86 | Taking the lowest digit tier by tier reaches a bit that no set bit precedes. |
| LevelBitmaps.LevelBitmap.Mark | cpp/src/order_book.cpp:45-51 | set(): the set of levels gains i, whatever it was. |
| LevelBitmaps.LevelBitmap.Clear | cpp/src/order_book.cpp:53-61 | clear(): the set of levels loses i, whatever it was. |
| LevelBitmaps.LevelBitmap.FindHighest | cpp/src/order_book.cpp:73-78 | The greatest set level, or nothing exactly when the set is empty. |
| LevelBitmaps.LevelBitmap.FindLowest | cpp/src/order_book.cpp:80-86 | The least set level, or nothing exactly when the set is empty. |
| LevelBitmaps.LevelBitmap.ScanAbove | cpp/src/order_book.cpp:91-101 | The least set level strictly above i, or nothing exactly when there is none. |
| LevelBitmaps.LevelBitmap.ScanBelow | cpp/src/order_book.cpp:103-114 | The greatest set level strictly below i, or nothing exactly when there is none. |
| IdTables.EmptySlotExists | cpp/src/order_book.cpp:198-203 | While live keys and tombstones together are fewer than the slots there is an empty slot, so every probe loop stops. |
| IdTables.EmptyMeansAbsent | cpp/src/order_book.cpp:186-195 | A probe that reaches an empty slot has proved the id is not in the table. |
| IdTables.Placing | cpp/src/order_book.cpp:204-216 | Claiming the first free slot on the probe path adds one entry, keeps every other key reachable, and reuses at most one tombstone. |
| IdTables.Erasing | cpp/src/order_book.cpp:219-234 | A tombstone removes one entry and keeps every other key reachable. |
| IdTables.IdTable.Find | cpp/src/oms.cpp:92-101 | The probe returns what the finite map holds for the id, for every hash function and history. |
| IdTables.IdTable.Erase | cpp/src/order_book.cpp:219-234 | The map loses the id, if it was there, and nothing else; live plus tombstones stay under half the table. |
| IdTables.IdTable.Rehash | cpp/src/order_book.cpp:236-259 | The rebuilt table holds the same map and no tombstones. |
| IdTables.IdTable.InsertGrowing | cpp/src/order_book.cpp:197-217 | The map gains the entry; live plus tombstones stay under half the table, which keeps its size or moves to at least four times the entries it then holds. |
| IdTables.IdTable.InsertCompacting | cpp/src/oms.cpp:103-117 | The map gains the entry and the table keeps its size, as long as the live entries stay under half of it. |
| BookSlab.UnlinkChain | cpp/src/order_book.cpp:294-308 | Unlinking a node from the front, middle or back leaves the same doubly-linked list without it. |
| BookSlab.LinkChain | cpp/src/order_book.cpp:282-292 | Linking at the back leaves the same list with the node as its newest. |
| BookMoves.ConsumeOk | cpp/src/order_book.cpp:348-357 | A partial trade lowers the order and its level total by the same amount; every slot stays in exactly one list and every total equals its FIFO. |
| BookMoves.DropOk | cpp/src/order_book.cpp:294-308 | Dropping an order moves its slot from its level's FIFO to the free list; every other slot, list, count and total is untouched. |
| BookMoves.RestOk | cpp/src/order_book.cpp:397-413 | Resting an order moves a slot from the free list, or a new one, to the back of its level; the whole slab stays in place. |
| BookCore.DropAtOk | cpp/src/order_book.cpp:423-439 | The whole state after a removal still agrees with itself (links, totals, counts, free list, id map, live count), and its levels are the old ones less that order. |
| BookCore.RestAtOk | cpp/src/order_book.cpp:397-413 | The whole state after resting still agrees with itself, and its levels are the old ones plus that order at the back. |
| BookCore.MeetCoreRuns | cpp/src/order_book.cpp:322-371 | One turn of the inner loop of match() is one encounter of the plain sweep and strictly shortens what is left to do. |
| BookCore.LevelTells | cpp/src/order_book.cpp:373-380 | An empty level already has total zero, so the defensive zeroing changes nothing; head and count tell emptiness. |
| BookOps.LiveIff | cpp/src/order_book.cpp:261-261 | The id map knows exactly the orders resting on either side. |
| OrderBooks.OrderBook.Cross | cpp/src/order_book.cpp:312-383 | On the whole book: match() leaves the plain sweep's queue, remainder, trades, preventions and stop, and adds no id. |
| BookOps.RestedBook | cpp/src/order_book.cpp:397-413 | Resting at a level is joining the plain price-time queue in its place. |
| BookOps.CancelledBook | cpp/src/order_book.cpp:423-439 | Taking the indexed slot out is removing that id from the plain book. |
| BookOps.ReducedBook | cpp/src/order_book.cpp:449-455 | Shrinking the slot is shrinking that order where it stands in the plain queue. |
| BookDepth.ScanTells | cpp/src/order_book.cpp:525-541 | The next set bit of a scan starts exactly what is left of the queue behind the current level. |
| BookDepth.LevelQuantity | cpp/src/order_book.cpp:520-523 | The level array's total is the whole queue's quantity at that price. |
| OrderBooks.BestBit | cpp/src/order_book.cpp:484-492 | The extreme bit is the best non-empty level, and no bit means an empty side. |
| OrderBooks.OrderBook.constructor | cpp/src/order_book.cpp:169-179 | A new book stands for the empty plain book, for every hash function. |
| OrderBooks.OrderBook.Match | cpp/src/order_book.cpp:312-383 | The nested loops over bitmap, levels and FIFOs end in the fate the plain sweep has from the same start. |
| OrderBooks.OrderBook.AddLimit | cpp/src/order_book.cpp:385-415 | Result, trades and book afterwards are those of the plain book, for every argument including the refused ones. |
| OrderBooks.OrderBook.ExecuteMarket | cpp/src/order_book.cpp:417-421 | Result, trades and book afterwards are those of the plain book. |
| OrderBooks.OrderBook.Cancel | cpp/src/order_book.cpp:423-439 | The order leaves the plain book; true exactly when it was live. |
| OrderBooks.OrderBook.Modify | cpp/src/order_book.cpp:441-464 | Cancel, in-place reduction or cancel-and-readd as on the plain book, with the same trades. |
| OrderBooks.OrderBook.Clear | cpp/src/order_book.cpp:466-482 | The book stands for the empty plain book again, keeping its policy. |
| OrderBooks.OrderBook.HasOrder | cpp/src/order_book.cpp:261-261 | True exactly for the ids live in the plain book. |
| OrderBooks.OrderBook.BestOf | cpp/src/order_book.cpp:484-492 | The price at the head of the plain queue, or none. |
| OrderBooks.OrderBook.BestQuantityOf | cpp/src/order_book.cpp:494-502 | The whole quantity at the best price, or zero. |
| OrderBooks.OrderBook.Spread | cpp/src/order_book.cpp:504-510 | Best ask minus best bid, absent exactly when a side is empty. |
| OrderBooks.OrderBook.QuantityAt | cpp/src/order_book.cpp:520-523 | The plain queue's quantity at that price, for every price, on the grid or off it. |
| OrderBooks.OrderBook.Depth | cpp/src/order_book.cpp:525-541 | The best n non-empty levels in order, each with its price, total and count, as read off the plain queue. |
| OrderBooks.OrderBook.Replay | cpp/tests/tests_main.cpp:411-506 | Over every flow of operations: same results, same trades in the same order, same resting queues as the plain book. |
| BookLaws.RunsKeepInv | cpp/src/order_book.cpp:312-464 | Every history keeps both queues in price-then-arrival order, quantities positive, ids unique across sides, on the grid. |
| BookLaws.NeverCrossed | cpp/src/order_book.cpp:312-464 | After every history from empty, under any policy, best bid < best ask and no id is on both sides. |
| BookLaws.EnqueuePlace | cpp/src/order_book.cpp:397-413 | A new order rests behind everything at its price or better and ahead of everything worse. |
| BookLaws.ReplacedLosesPriority | cpp/src/order_book.cpp:457-463 | A repriced or enlarged order, if anything of it rests, is last at its price. |
| BookLaws.ReductionKeepsPlaces | cpp/src/order_book.cpp:449-455 | A pure reduction trades nothing and leaves every order of both sides where it was. |
| BookLaws.FillsWhatCrosses | cpp/src/order_book.cpp:312-383 | Without a policy an aggressor gets the lesser of what it asked for and all that is within its limit. |
| BookLaws.QuantityConserved | cpp/src/order_book.cpp:312-383 | What left the queue is what traded plus the owner's own orders that left it; only cancel-resting removes any, one prevention each; the fill equals the traded volume. |
| BookLaws.TradesFollowQueue | cpp/src/order_book.cpp:334-368 | Trades name queue orders in queue order at their own prices, within the limit, and never an order of the aggressor's own under a policy. |
| SweepCost.MarketSweep | cpp/src/order_book.cpp:312-383 | The sweep's queue, fill and notional equal the closed forms Taken, Supplied and Cost. |
| SweepCost.TakenComposes | cpp/src/order_book.cpp:312-383 | Executing q1 then q2 leaves the same queue and costs the same as q1 + q2. |
| SweepCost.AverageNeverImproves | cpp/src/execution.cpp:42-79 | For all sizes, more than the book holds included, the average price paid for what fills never falls as the size grows. |
| SweepCost.AverageNeverImprovesSelling | cpp/src/execution.cpp:42-79 | The same for selling: the average received for what fills never rises. |
| SweepCost.ReportedAgainstAggressor | cpp/src/execution.cpp:14-22 | The reported price lies between the best and worst trade and misses the exact average by under a tick, never in the aggressor's favour. |
| PriceGrid.GridBaseIff | cpp/src/order_book.cpp:126-131 | The grid starts at the first multiple of the tick in the band if and only if the band starts at zero or above, or on the grid; otherwise one tick too high. |
| PriceGrid.BandIsTheGridIff | cpp/include/hft/order_book.hpp:183-191 | The book has a slot for exactly the multiples of the tick inside the band if and only if the band starts at zero or above, or on the grid. |
| SpscRing.WriteClobbersNothing | cpp/include/hft/ring_buffer.hpp:74-82 | Writing the next slot leaves every published, unread slot as it was. |
| SpscRing.StepKeepsInv | cpp/include/hft/ring_buffer.hpp:68-113 | Each single step of either side (stale refresh, slot write, publish, slot read, release) keeps the ring's invariant. |
| SpscRing.PoppedIsPrefix | cpp/include/hft/ring_buffer.hpp:68-113 | In every interleaving and staleness the popped items are a prefix of the pushed ones in order, and 0 <= head - tail <= capacity, on wrapping 64-bit indices. |
| SpscRing.ThreadedSeesTheFeed | cpp/src/engine.cpp:498-526 | Without a stop request the threaded run processes a prefix of the feed, and all of it once the loop is left, as the inline run does. |
| SpscRing.RoundUpPow2 | cpp/include/hft/ring_buffer.hpp:122-127 | A power of two not below n, less than twice n, and at least two. |
| SpscRing.SpscRingBuffer.TryPush | cpp/include/hft/ring_buffer.hpp:68-82 | Appends the item and succeeds exactly when the ring has room. |
| SpscRing.SpscRingBuffer.PushOrDrop | cpp/include/hft/ring_buffer.hpp:87-91 | Appends the item or counts exactly one drop. |
| SpscRing.SpscRingBuffer.TryPop | cpp/include/hft/ring_buffer.hpp:94-105 | Delivers the oldest item not yet popped, and fails exactly when there is none. |
| SpscRing.SpscRingBuffer.Size | cpp/include/hft/ring_buffer.hpp:109-115 | The number of items pushed and not popped. |
| OmsLaws.AddExposureAt | cpp/src/oms.cpp:174-189 | Where the clamp does not fire, booking is plain addition on one side of one symbol and nothing else. |
| OmsLaws.AddExposureGross | cpp/src/oms.cpp:174-189 | Gross stays the sum over symbols of |buy - sell|, clamp or no clamp. |
| OmsLaws.SlotsInUse | cpp/src/oms.cpp:162-167 | Tracked orders are exactly the open ones plus those in the retired ring. |
| OmsLaws.BalancedIff | cpp/src/oms.cpp:385-403 | Recomputing leaves as quantity - filled agrees with subtracting what was consumed, for every size of fill, if and only if filled + leaves = quantity, or leaves and quantity - filled are both at most one: the order is balanced. |
| OmsLaws.RetireTracked | cpp/src/oms.cpp:305-327 | Retiring keeps the tracking invariant and takes one order off the open count, forgetting at most the oldest finished one. |
| OmsLaws.RetireExposed | cpp/src/oms.cpp:305-327 | Retiring releases exactly what the order still had booked. |
| OmsLaws.ExecutedKeeps | cpp/src/oms.cpp:382-417 | A fill, overfills included, keeps every invariant; exposure stays exact if the filled order is balanced. |
| OmsLaws.ReportKeeps | cpp/src/oms.cpp:329-449 | Any report for any order in any state keeps tracking, accounting and exact exposure. |
| OmsRuns.SweepIsExact | cpp/src/oms.cpp:465-495 | The sweep expires exactly the overdue PendingNew orders, leaves every other order as it was, and running it again does nothing. |
| OmsRuns.HistoryKeeps | cpp/src/oms.cpp:191-495 | Every possible history keeps tracking and accounting, and exact exposure if adopted orders are balanced. |
| OmsRuns.EveryOrderAccountedFor | cpp/src/oms.cpp:201-327 | created + adopted = open + filled + cancelled + rejected + expired; tracked = open + retired; both within capacity. |
| OmsRuns.ExposureIsExact | cpp/src/oms.cpp:174-189 | In every history whose adopted orders are balanced each side of each symbol books exactly the leaves of its working orders, and gross is the sum of the nets. |
| OmsRuns.ClampNeverFires | cpp/src/oms.cpp:174-189 | What is booked covers every fill's consumption and every retirement's release, so the clamp at zero never fires. |
| OmsRuns.FillsKeepExposureIff | cpp/src/oms.cpp:385-403 | A working order keeps exposure exact under every possible fill if and only if it is balanced. |
| OmsRuns.AdoptedPartsExposure | cpp/src/oms.cpp:277-303 | An adopted order of ten with nothing filled and four left, then filled by two, shows eight left and two booked. |
| OmsRuns.FinalIsFinal | cpp/src/oms.cpp:329-449 | No operation changes a finished order, except to note the venue's id. |
| OmsRuns.RoomToOpen | cpp/src/oms.cpp:218-237 | A slot is free whenever an order may be opened, so the evict-on-create branch is unreachable. |
| OmsRuns.UnknownWasNeverIssued | cpp/src/oms.cpp:330-340 | After any history a report about an id that was ever issued is not counted as unknown. |
| OmsSlots.SlotTaken | cpp/src/oms.cpp:162-167 | Taking a slot off the free list keeps every slot in exactly one place and adds one order to the map. |
| OmsSlots.SlotFreed | cpp/src/oms.cpp:305-327 | Freeing a slot keeps every slot in exactly one place and forgets one order. |
| OmsSlots.RingPushed | cpp/src/oms.cpp:305-327 | The circular array is a FIFO of finished ids: the newest is appended, the oldest dropped once full. |
| OrderManagers.OrderManager.constructor | cpp/src/oms.cpp:60-78 | A new manager tracks nothing; a history below one is corrected. |
| OrderManagers.OrderManager.AddExposure | cpp/src/oms.cpp:174-189 | In-place booking equals the specified booking. |
| OrderManagers.OrderManager.Find | cpp/src/oms.cpp:497-500 | The record of a tracked id, or none. |
| OrderManagers.OrderManager.CreateWithId | cpp/src/oms.cpp:201-258 | Pool, index, ring and counters end as the specified state, and the invariant holds; the eviction branch is dead. |
| OrderManagers.OrderManager.Create | cpp/src/oms.cpp:191-193 | The same under the next id. |
| OrderManagers.OrderManager.SetNextId | cpp/src/oms.cpp:195-199 | Ids only ever move forward. |
| OrderManagers.OrderManager.Adopt | cpp/src/oms.cpp:260-303 | The adopted order is tracked, counted and booked with the venue's own leaves, as specified. |
| OrderManagers.OrderManager.Apply | cpp/src/oms.cpp:329-449 | Every report ends in the specified state, with the specified verdict. |
| OrderManagers.OrderManager.RequestCancel | cpp/src/oms.cpp:451-463 | As specified: only a New or PartiallyFilled order moves to PendingCancel. |
| OrderManagers.OrderManager.SweepTimeouts | cpp/src/oms.cpp:465-495 | Collects each overdue id once and expires them all. |
| OrderManagers.OrderManager.OpenOrders | cpp/src/oms.cpp:502-514 | Exactly the working ids, in ascending order. |
| RiskSpec.GateNeverUnderstates | cpp/src/risk.cpp:104-134 | If the gate accepts and the order is tracked, |position + working| is within the symbol limit and the sum over any symbols is within the gross limit. |
| RiskSpec.TotalRiskBounded | cpp/src/risk.cpp:119-134 | The cheap gross bounds the sum of |position + working| over all symbols. |
| RiskSpec.FillMovesWorkingToPosition | cpp/src/risk.cpp:159-169 | A fill leaves position + working unchanged, except by exactly the excess of an overfill. |
| RiskSpec.OnFillAddsUp | cpp/src/risk.cpp:159-169 | Gross position stays the sum of |position|; one position moves by the signed quantity. |
| RiskSpec.SymbolLimitNeverWider | cpp/src/risk.cpp:46-57 | Whatever limits are set, no symbol's limit is wider than the global one. |
| RiskSpec.HaltIsSticky | cpp/src/risk.cpp:65-80 | An engaged kill switch keeps its first reason, and refuses a valid order if and only if limits are enabled. |
| RiskManagers.RiskManager.Gate | cpp/src/risk.cpp:65-157 | check() ends in the specified state with the specified reason. |
| RiskManagers.RiskManager.Filled | cpp/src/risk.cpp:159-169 | on_fill() ends in the specified state. |
| RiskManagers.RiskManager.SetLimit | cpp/src/risk.cpp:46-52 | set_symbol_limit() ends in the specified state. |
| RiskManagers.RiskManager.Engage | cpp/src/risk.cpp:183-186 | The first halt reason stays. |
| RiskManagers.RiskManager.ReleaseKillSwitch | cpp/src/risk.cpp:188-188 | Nothing is halted any more, and nothing else changes. |
| Dispatching.DispatchKeeps | cpp/src/engine.cpp:93-142 | Whatever the venue answers, dispatching keeps every invariant of the order manager. |
| Dispatching.DispatchCloses | cpp/src/engine.cpp:93-142 | An order pending when dispatched is finished afterwards, and no other working order is touched. |
| Dispatching.NothingWorking | cpp/src/oms.cpp:516-528 | With nothing working, nothing is booked on any symbol and gross is zero. |
| EngineSpec.ProcessKeepsQuiet | cpp/src/engine.cpp:336-371 | At zero latency, processing an order and any partial fill leaves nothing working and every limit met. |
| EngineSpec.FlattenKeepsQuiet | cpp/src/engine.cpp:377-424 | So does flattening, which enlarges no position and ends each one whose exit fills. |
| EngineSpec.FlattenFlattens | cpp/src/engine.cpp:377-424 | A symbol whose exit the venue fills whole is flat afterwards on both sides. |
| EngineSpec.LimitsAlwaysHold | cpp/src/engine.cpp:336-371 | Between any calls of a session at zero latency, failing appends included: no order works, both sides agree on positions, each within its symbol limit, their sum within the gross limit. |
| InFlight.StaysBetween | cpp/src/engine.cpp:144-167 | However the venue answers what lands, a position stays between what all the sells on the wire and what all the buys could make of it. |
| InFlight.BookedIsFlying | cpp/src/oms.cpp:174-189 | What is booked on a side of a symbol, plus what has timed out on it but has yet to land, is exactly what the wire carries there. |
| InFlight.WireIff | cpp/src/engine.cpp:144-186 | Whatever is on the wire, tracked or expired, every landing and every partial fill keeps a position within a limit if and only if the position with all its buys, and with all its sells, is within it. |
| InFlight.GrossIff | cpp/src/engine.cpp:144-186 | They keep the sum of the absolute positions within a limit if and only if the sum over the symbols of the worse of those two ends is within it. |
| InFlight.WithinIff | cpp/src/risk.cpp:104-117 | The same for one position read off the books: if and only if, on either side, what is held plus what is booked plus what has timed out in flight is within the limit. |
| FlightRuns.EveryFlightIff | cpp/src/engine.cpp:336-463 | That holds after every run of sends through the gate, landings under any answers, exits of a flatten once all has landed, timeout sweeps, halts raised elsewhere and releases of the kill switch. |
| FlightRuns.LandingUnbooks | cpp/src/engine.cpp:93-142 | A landing takes the whole order off what is booked or timed out on its side, whatever part of it filled. |
| FlightRuns.SweepingMakesLate | cpp/src/engine.cpp:426-463 | A sweep moves what it expires from booked to timed out in flight, and leaves every worst case where it was. |
| FlightRuns.SendingKeepsWithinIff | cpp/src/engine.cpp:336-374 | Another order keeps a flight within the limit if and only if what is held, plus what is booked or timed out in flight on its own side, plus the order is within it. |
| FlightRuns.AskingFirstIsEnough | cpp/src/engine.cpp:336-463 | Over every run under latency whose sender asks that before each order, exits, sweeps, halts and releases included, no position ever passes its limit. |
| FlightRuns.BooksAreEnoughWhileTimeoutsHalt | cpp/src/engine.cpp:426-463 | While timeouts stop trading, as they do by default, and the stop is not released, asking what is held and booked alone is enough. |
| FlightGross.SendingKeepsGrossIff | cpp/src/engine.cpp:336-374 | Another order keeps whatever can land within the gross limit if and only if the sum over the symbols of the worse side of what is held, booked and timed out in flight, with it, is within the limit. |
| FlightGross.AskingForGrossIsEnough | cpp/src/engine.cpp:336-463 | Over every run under latency whose sender asks that sum before each order, the gross position never passes its limit and nothing in flight can take it there. |
| FlightFailures.GateLetsItPass | cpp/src/risk.cpp:104-117 | A run that shows the gate does not ask: under a position limit of ten it accepts a sell of ten and then a buy of twenty, the sell fills nothing, the buy fills whole, and position and gross are twenty, also under a gross limit of ten. |
| FlightFailures.BooksForgetTheLate | cpp/src/engine.cpp:426-463 | A run that shows the books alone are not enough otherwise: a buy of ten times out on the wire, the books have room for ten more, both fill whole, and the position is twenty under a limit of ten. |
| JournalFile.FileTells | cpp/src/journal.cpp:307-459 | Recovering the file finds the orders and positions of the steps whose records are in it, whichever appends were lost. |
| JournalFile.NothingLost | cpp/src/journal.cpp:174-219 | While no append is lost the file keeps every step, under the numbers 1, 2, 3 and so on. |
| JournalFile.HaltOnFile | cpp/src/engine.cpp:153-166 | A halt that began with an order, if its record was not lost, is in force after recovery under its reason. |
| LostRecords.FoundAfterDispatch | cpp/src/engine.cpp:93-142 | After a dispatch any of whose appends may be lost, from any journal: the venue is further ahead by the fill exactly if its record was lost; recovery knows the order if and only if the intent was not; and it is open if and only if nothing on file ends it. |
| LostRecords.StillRecoverableIff | cpp/src/engine.cpp:93-142 | For that dispatch the write-ahead promise survives if and only if the fill was not lost or the order stays open in recovery. |
| LostRecords.PromisedIsRecoverable | cpp/src/engine.cpp:93-142 | From a journal that is right about every position, that promise is the one a stop after any step keeps. |
| LostRecords.BehindByLostFills | cpp/src/engine.cpp:81-171 | Over every session and whatever becomes of each append, recovery is behind the venue by exactly the fills whose records were lost. |
| LostRecords.GapsShowLosses | cpp/src/journal.cpp:371-372 | Recovery reports a gap if and only if an append was lost between two that were not. |
| LossyRuns.LossyRunRecovers | cpp/src/engine.cpp:81-186 | Over every run under latency of sends, cancels, sweeps, halts and landings, whatever becomes of each append: recovery is behind the venue by exactly the lost fills, and reports open exactly the orders whose intent is on file and whose end is not. |
| LossyRuns.CrashInLanding | cpp/src/engine.cpp:81-142 | The same stopped after any step of the next landing: between the fill and its record recovery is behind by that fill too, and until then it reports the order open if and only if its intent was not lost. |
| LossyRuns.LatentRunRecovers | cpp/src/engine.cpp:81-186 | With nothing lost and every order landing before it times out, recovering the file of a run under latency finds the positions of the venue, no open order, and nothing wrong with the file. |
| EngineRuns.SessionRecovers | cpp/src/engine.cpp:336-424 | Over every session with no append lost, recovering the file finds exactly the positions of the venue, no open order, and nothing wrong with the file. |
| Engines.ActsOnDisk | cpp/src/engine.cpp:93-142 | dispatch() leaves the file with intent, acknowledgement, fill and cancel, as far as each happens and is written. |
| Engines.Engine.Emit | cpp/src/engine.cpp:81-91 | The report is filed, then applied; if the append fails the kill switch is engaged and the run is asked to stop. |
| Engines.Engine.Dispatch | cpp/src/engine.cpp:93-142 | Order manager, venue, file, kill switch and stop request end as specified whichever of the appends fail. |
| Engines.Engine.CompleteOrder | cpp/src/engine.cpp:144-167 | The fill reaches the risk manager after dispatch, the drawdown verdict comes last, and a halt is filed exactly when it begins here. |
| Engines.Engine.Trade | cpp/src/engine.cpp:336-371 | Gate, track, dispatch and account end as specified, file included, also when the gate or the order manager refuses or an append fails. |
| Engines.Engine.Flatten | cpp/src/engine.cpp:377-424 | The loop over the snapshot of positions ends as specified, file included, whichever appends fail. |
| Engines.Engine.Perform | cpp/src/engine.cpp:336-424 | Each call of a session leaves the live objects and the file where the specified session step leaves the plain engine and its file. |
| Engines.Engine.Run | cpp/src/engine.cpp:336-424 | So does a whole session of calls, any calls; which records were written is for the journal to say, and all were if no append failed. |
| Engines.RunFromFlat | cpp/src/engine.cpp:336-424 | Run live from flat on a new journal: recovering the file finds positions behind the venue by exactly the lost fills; and if no append failed, the positions of the venue and no open order. |
| Markets.FillsFromTheBook | cpp/src/execution.cpp:42-79 | Whatever the book, the answer fills no more than was asked for, and the book loses exactly what is filled. |
| Markets.PositionsComeFromBooks | cpp/src/engine.cpp:336-371 | Whatever becomes of an order, what it adds to the position is what it takes from the opposite queue. |
| Markets.FlattenEndsIff | cpp/src/engine.cpp:377-424 | flatten() enlarges no position, and ends one if and only if there is a usable price for it and its book can supply all of it. |
| Markets.MarketHolds | cpp/src/engine.cpp:336-424 | Over every run against live books that the feed and the engine both move: between events no order works, both sides agree on positions, every limit holds, and no book is crossed. |
| Wires.HeadIsEnoughIff | cpp/src/engine.cpp:169-180 | Looking only at the head of the wire releases every due order at every time if and only if release times never fall along it. |
| Wires.Wire.Send | cpp/src/engine.cpp:355-374 | Under one latency and a clock that does not go back, sent orders stay in release order. |
| Wires.Wire.Release | cpp/src/engine.cpp:169-186 | Releases exactly the leading due orders (all, when forced), in the order sent, and keeps the rest. |
| JournalSpec.FoldCounts | cpp/src/journal.cpp:344-375 | Every record is read or counted corrupt, and the last number seen is the last intact record's. |
| JournalSpec.GapsTell | cpp/src/journal.cpp:371-372 | Recovery reports a gap if and only if a damaged record lies between two intact ones. |
| JournalSpec.ReportedCleanIff | cpp/src/journal.cpp:344-375 | Nothing corrupt and nothing truncated is reported if and only if every record is intact. |
| JournalSpec.TornTailLosesOne | cpp/src/journal.cpp:349-369 | A torn last record loses that record only. |
| JournalSpec.HaltSurvives | cpp/src/journal.cpp:422-430 | A journalled halt is in force after recovery unless a later record resumed or replaced it. |
| JournalSpec.FailedWriteShows | cpp/src/journal.cpp:174-219 | A write that failed used up its number, so the next record shows a gap. |
| JournalSpec.RestartShowsNoGapIff | cpp/src/journal.cpp:143-151 | A reopened file's first new record shows no gap if and only if the last record's number equals the count of records read. |
| JournalSpec.RestartAfterFailedWrite | cpp/src/journal.cpp:143-151 | One failed write in the session before makes the new session repeat a number and show a gap where nothing was lost. |
| Journals.Journal.constructor | cpp/src/journal.cpp:95-165 | On a file that ends on a record boundary, damaged or not, numbering goes on from the records recovery reads; a numbered file is whole exactly when none is damaged. |
| Journals.Journal.Append | cpp/src/journal.cpp:174-219 | Numbered first, then written; a failed write leaves the file alone, a failed flush or sync leaves the record in it, and either is counted and reported. |
| Journals.ReadAll | cpp/src/journal.cpp:344-449 | The record loop over a live order manager computes the specified fold. |
| Journals.RecoverFrom | cpp/src/journal.cpp:307-459 | Recovery computes the specified state, and reports exactly the working orders as open. |
| CrashSafety.CancelEmittedIff | cpp/src/engine.cpp:129-140 | A pending order's remainder is cancelled exactly when the venue left something unfilled. |
| CrashSafety.StopAnywhere | cpp/src/engine.cpp:93-142 | Stopped after any step of dispatch(), recovered and venue positions agree, or differ by the signed fill of the one order recovery reports open besides, with at least that many leaves; the last step settles it, unless the order had expired and was not filled whole. |
| CrashSafety.ExpiredBeforeLanding | cpp/src/engine.cpp:129-140 | An order expired before it lands leaves the positions agreeing and is reported open by recovery if and only if the venue left something of it unfilled. |
| CrashSafety.CrashAnywhere | cpp/src/engine.cpp:81-142 | The same over whole sessions of sends, cancels, sweeps and landings, with latency, from a flat start: between landings every position is right and exactly the orders that expired in flight and were not filled whole are open. |
| CrashSafety.OnTimeStrandsNothing | cpp/src/engine.cpp:129-140 | While every order is still known as working when it lands, no order is ever left open. |
| PnlSpec.ProfitIsCash | cpp/src/execution.cpp:81-121 | Over any fills, flips included, realized PnL less the cost bases is the net cash, and a flat symbol has zero cost basis. |
| PnlSpec.EquityIsCashPlusMark | cpp/src/execution.cpp:150-156 | With one symbol traded, equity at any mark is net cash plus position times mark. |
| PnlSpec.EquityHoldsOthersAtCost | cpp/src/execution.cpp:150-156 | Over any fills in any symbols, equity of one symbol is net cash, plus its position at the mark, plus what the positions in all other symbols cost. |
| PnlSpec.EquityIsTotalIff | cpp/src/execution.cpp:150-156 | The whole account is worth net cash plus every position at its mark; equity of one symbol is that if and only if the unrealized profits of the others cancel out. |
| PnlSpec.LossElsewhereUnseen | cpp/src/engine.cpp:153-156 | A case that shows it: a loss of sixty in one symbol leaves the equity reported for another at zero. |
| PaperVenues.NoOwnerNoPolicy | cpp/src/execution.cpp:49-50 | The venue crosses without an owner, so no self-match policy touches its sweep. |
| PaperVenues.CrossFinds | cpp/src/execution.cpp:42-79 | Its fill, notional and the book left behind are the closed forms of the sweep; the other side is untouched. |
| PaperVenues.ExecutionsCompose | cpp/src/order_book.cpp:417-421 | On a whole book, executing q1 and then q2 leaves the book, the total fill and the total notional of executing q1 + q2. |
| PaperVenues.QuoteIsFair | cpp/src/execution.cpp:42-79 | It never fills more than asked, at a price between the queue's extremes, rounded against the order by under a tick. |
| PaperVenues.FlatPriceIsNearest | cpp/src/execution.cpp:73-79 | Without a book the price is the slipped reference to the nearest tick, halves going away from zero. |
| PaperVenues.PaperVenue.FillPriceFor | cpp/src/execution.cpp:42-71 | Price and quantity are those of the quote for the order's book, and only the opposite queue changes, by what is taken. |
| PaperVenues.PaperVenue.ApplyPnl | cpp/src/execution.cpp:81-121 | Position, cost basis, realized PnL and fees move as the ledger does. |
| PaperVenues.PaperVenue.Submit | cpp/src/execution.cpp:123-148 | The fill carries the quote and its fee, and the ledger moves exactly if something filled. |
| PaperVenues.PaperVenue.SubmitFlat | cpp/src/execution.cpp:73-79 | The same for an instrument without a book, filled whole at the slipped reference. |
| PaperVenues.PaperVenue.EquityAt | cpp/src/execution.cpp:150-156 | Realized PnL plus the unrealized part at the mark. |
| LatencySpec.BucketsTile | cpp/src/latency.cpp:62-76 | Each bucket ends where the next begins. |
| LatencySpec.BucketNarrow | cpp/src/latency.cpp:62-76 | A bucket is narrower than a sixteenth of its low end, and a single value below thirty-two. |
| LatencySpec.InOwnBucket | cpp/src/latency.cpp:50-60 | Every value lies in the bucket its index names. |
| LatencySpec.OnlyBucket | cpp/src/latency.cpp:50-76 | And in no other. |
| LatencySpec.ClampNeverFires | cpp/src/latency.cpp:50-60 | Exactly the values below 2^63 fall in the first 960 of 1024 buckets, which tile that range. |
| LatencyHistograms.ReportBound | cpp/src/latency.cpp:109-129 | The report for a rank is at least that rank's sample and less than a sixteenth above it, exact below thirty-two. |
| LatencyHistograms.LowEndReportsHigh | cpp/src/latency.cpp:119-127 | A sample at the low end of its bucket is reported at the high end, so the bound is not slack. |
| LatencyHistograms.SixteenthApproached | cpp/src/latency.cpp:119-127 | In every octave 16 * 2^s is reported as 17 * 2^s - 1: sixteen times the excess is the sample less sixteen. |
| LatencyHistograms.ThreePercentIsPassed | cpp/include/hft/latency.hpp:9-13 | Of the samples 64 and 67 the first is reported as 67, over four percent above. |
| LatencyHistograms.PercentileBound | cpp/src/latency.cpp:109-129 | The same for every percentile strictly between 0 and 100. |
| LatencyHistograms.PercentileMonotone | cpp/src/latency.cpp:109-129 | A larger percentile is never reported smaller. |
| LatencyHistograms.RecordedHolds | cpp/src/latency.cpp:78-85 | Recording a value keeps the histogram standing for the samples, one more. |
| LatencyHistograms.MergedHolds | cpp/src/latency.cpp:87-99 | Merging stands for both streams, one after the other. |
| LatencyHistograms.LatencyHistogram.Record | cpp/src/latency.cpp:78-85 | The histogram stands for one more sample, negative values as zero. |
| LatencyHistograms.LatencyHistogram.Merge | cpp/src/latency.cpp:87-99 | The histogram stands for both sample streams. |
| LatencyHistograms.LatencyHistogram.Percentile | cpp/src/latency.cpp:109-129 | The loop over the counts reports the specified percentile. |
| Crc32.LookUp | cpp/src/journal.cpp:16-32 | One table look-up does the work of eight bits of reflected division by 0xEDB88320, from any register. |
| Crc32.Table | cpp/src/journal.cpp:16-32 | The table holds the eight-step remainder of every byte. |
| Crc32.Compute | cpp/src/journal.cpp:51-59 | The table-driven loop is the bit-by-bit checksum (section 8 of RFC 1952) of every byte string from every seed. |
| Crc32.BurstDetected | cpp/src/journal.cpp:43-48 | Two messages that differ only within 32 adjacent bits never share a checksum. |
| Crc32.ByteChangeDetected | cpp/src/journal.cpp:43-48 | Changing any one byte always changes the checksum. |
| Crossover.ComparesAverages | cpp/src/strategy.cpp:53-62 | The integer cross-multiplication decides as the exact averages would. |
| Crossover.WindowSlides | cpp/src/strategy.cpp:36-51 | Adding what arrives and subtracting what leaves keeps the sum of the last n prices. |
| Crossover.SignalJoins | cpp/src/strategy.cpp:53-75 | A stream's signals are those of its ticks, one at a time, with none before the slow window fills or on the first comparison. |
| Crossover.SignalsAlternate | cpp/src/strategy.cpp:60-75 | Consecutive signals of one symbol take opposite sides. |
| Crossover.MovingAverageCrossover.OnTick | cpp/src/strategy.cpp:32-75 | From ring, running sums and last state the signal is that of the whole price stream of the symbol; no other symbol's stream changes. |
| Reconciling.CountsAddUp | cpp/src/reconcile.cpp:129-198 | ours = agreed + missing + terms + quantity breaks; theirs = agreed + terms + quantity breaks + orphans. |
| Reconciling.OrdersMatchIff | cpp/src/reconcile.cpp:129-198 | No order break and no orphan if and only if the orders match one-to-one on id, terms and leaves. |
| Reconciling.CleanIff | cpp/src/reconcile.cpp:109-230 | Clean if and only if the venue was available, the orders match one-to-one, and every symbol's positions agree. |
| Reconciling.AdoptsAll | cpp/src/oms.cpp:260-303 | Adopting a list of orders books exactly what the venue says is left of each, side by side and symbol by symbol. |
| Reconciling.AdoptingCleanReport | cpp/src/oms.cpp:260-303 | Adopting a clean report makes the working quantity of every side of every symbol the venue's own leaves. |
| Reconciling.IndexById | cpp/src/reconcile.cpp:116-127 | The index finds the first venue order with the id, if any; id zero is never indexed. |
| Reconciling.Reconcile | cpp/src/reconcile.cpp:109-230 | The loops compute the specified findings, in the same order. |

## Left out

- Integer widths: quantities, prices, ids and counters are unbounded. The widths that matter are written out:
  64-bit wrap-around of the ring's indices, 64-bit bitmap words, 2^63 nanoseconds, 32-bit checksums.
- Floating point: prices times quantities, fees, PnL, average fill prices, the collar and percentile ranks are
  exact integers or reals, with no rounding.
- Vectors of levels, nodes, records, keys and counts are sequences held in fields that the methods reassign;
  reallocation and references into a vector are not modelled.
- Nil slot numbers are -1 and an absent price or result is an option; the no-price
  sentinel, the least 64-bit price, is taken to lie outside the band.
- The id hash is an arbitrary function, so nothing depends on how it mixes.
- Trades are returned as a sequence instead of appended to the caller's vector.
- The exposure of a symbol is held in two sequences, buys and sells, instead of one of pairs.
- OrderManagers.OrderManager.CreateWithId: requires an id other than the tombstone value 2^64 - 1, which the
  code does not refuse and which its index could never find again.
- IdTables.IdTable.InsertGrowing: requires an id the table does not hold, as its one caller checks; for a known id
  the code may claim a tombstone that lies before the id and leave two entries.
- IdTables.IdTable.InsertCompacting: the same.
- OrderManagers.OrderManager.Create: like CreateWithId, a next id other than 2^64 - 1.
- OrderManagers.OrderManager.Adopt: like CreateWithId, a snapshot id other than 2^64 - 1.
- Journals.ReadAll: like CreateWithId, filed order ids other than 2^64 - 1.
- Journals.RecoverFrom: the same.
- OrderManagers.OrderManager.Apply: the report type is one of the five real ones; an out-of-range tag, counted
  as invalid by the code, cannot be written down here.
- Engines.Engine.Flatten: the forced release of the wire before it is `Wires.Wire.Release`; exit prices and the
  venue's answers are parameters, an answer counting only up to what is held and a missing one as no price (in
  `Markets` the answers come from the books).
- Engines.Engine.Perform: the venue's answers and the drawdown verdict are parameters.
- Engines.Engine.Trade: like CreateWithId, a next id other than 2^64 - 1.
- Engines.Engine.CompleteOrder: the drawdown verdict, computed from the equity in the program, is a parameter; a
  halt's append and the sync behind it are one outcome.
- Engines.RunFromFlat: zero latency (runs under latency are in `LossyRuns`), no symbol limits, and fewer than
  2^64 - 2 ids used.
- LostRecords.BehindByLostFills: zero latency; under latency it is `LossyRuns.LossyRunRecovers`.
- EngineRuns.SessionRecovers: zero latency; under latency it is `LossyRuns.LatentRunRecovers`.
- LossyRuns.LossyRunRecovers: the gate is left out, so the runs are more than the engine's; fewer than 2^20 orders
  stay open in recovery.
- Markets.MarketHolds: zero latency, limits enabled, nothing adopted; the venue's owner number is zero.
- Wires.Wire.Release: returns what leaves; that an order completing could send another while the loop runs is not
  modelled, as completing never sends one.
- CrashSafety.CrashAnywhere: one session from a flat start, with working appends (failing ones are in
  `LostRecords`), nothing adopted, and fewer
  than 2^20 orders stranded, the open orders recovery can follow. The venue restarts flat, so positions carried
  across sessions are out.
- FlightRuns.EveryFlightIff: a run from flat, with nothing adopted and no cancel requests, which the engine never
  makes.
- Journals.Journal.constructor: a file that ends on a record boundary; the program appends after a partial record
  without cutting it, and what it then reads is not modelled.
- SpscRing.ThreadedSeesTheFeed: a run without a stop request.
- EngineSpec.LimitsAlwaysHold: zero latency, limits enabled and nothing adopted.
- PaperVenues.PaperVenue.Submit: the recorded equity curve is out; a book is taken to satisfy its own invariant,
  which every run of the book keeps.
- PaperVenues.PaperVenue.FillPriceFor: the branch without a book is `FlatPriceFor`; the book's invariant as above.
- LatencyHistograms.LatencyHistogram.Record: values below 2^63, which is every nanosecond count; the running sum
  may wrap in the program and does not here.
- Crc32.Compute: registers are sequences of 32 bits and bytes are numbers taken modulo 256; the layout of a
  record in bytes is out.
- Reconciling.CleanIff: the orders on our side have distinct ids, as the order manager guarantees.
- The engine always has a journal here; its run statistics are left out.
- Reject counts by reason, summaries, logging, metrics, the command line, signals, and clearing the order manager.
- File I/O, sync policies, journal headers, and the parsers of CSV, venue and configuration files.
- Clocks, the drawdown verdict, the disk's health and the venue's answer inside the engine are parameters.
- Stages 0 to 3 of processing a tick: feed checks, book updates from the feed, reference price and strategy call.
- Memory ordering beyond stale index reads, cache-line padding, and the drop counter as an atomic.
- Instrument registry, feed generators and the feed monitor: small range and flag logic that would add easy members.
- The Python pipeline, which repeats this logic.
