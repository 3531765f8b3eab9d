# Trade engine: order book, matching, queues, gateway and logger

A Dafny model of a low-latency trading engine written in C++. Clients put
orders into lock-free ring queues. The order gateway numbers them and forwards
them to the matching engine. The engine keeps one limit order book per side,
sweeps the far side with each new order, rests what is left, and sends private
acknowledgements (for trader 1) and public broadcasts. The gateway translates
the acknowledgements back. A logger formats records into a fixed buffer.

The shape of the model follows the source. Code that updates objects in place
is a class with the same fields and loops (`LimitedOrderBook`,
`MatchingEngine`, `LFQueue`, `OrderGateway`, the buffer writers of the logger).
Each method is proved against a specification on plain values, and the
properties are proved about that specification.

| file | models |
|---|---|
| Orders.dfy | message structs, machine integers, price to tick |
| PriceTime.dfy | the reference matcher: one side as a list in price-time order |
| BookRep.dfy | price rows with tombstones, lookup table, counters, cursor: when they agree and which list they stand for |
| OrderBook.dfy | `limitedOrderBook<isBuy>` |
| SweepLoop.dfy | the outer sweep loop pass by pass and trade by trade, and when it ends |
| Market.dfy | what each request does to a two-sided market; runs; the uncrossed book |
| Trading.dfy | the limit of a request in ticks and prices, its remainder, where resting orders come from |
| Tape.dfy | what the engine reports: trades told to trader 1, broadcasts, notices |
| Ledger.dfy | conservation per side and per order |
| AckReplay.dfy | rebuilding trader 1's orders from its acknowledgements |
| MatchingEngine.dfy | `MatchingEngine` |
| ZeroUpdate.dfy | the same loops on rows, table, counters and cursor after an update to quantity 0 has broken their agreement |
| RingQueue.dfy | `LFQueue`: all interleavings of its atomic steps, and the class |
| Gateway.dfy | `OrderGateway` |
| System.dfy | clients, gateway and engine together, all interleavings, down to single trades |
| Simulation.dfy | the classes take the steps of the ring and of the system |
| Logger.dfy | digit, price and record writers, `drainBatch` |
| LogReader.dfy | a reader for the log text, and the round trip |

How the engine's correctness is put together: `SweepIsMatch` says the
declarative description of a price-time sweep has exactly one solution, `Match`.
`SweepLevel`, `SweepPass` and `AggressiveMatch` prove that the loops over
tombstoned rows compute `Match`. `ProcessOrder` and `Serve` prove that the class
does what `Process` and `Run` say. `ProcessInv`, `RunBalanced`,
`RunOrderBalanced` and `RunRebuilt` prove what `Process` and `Run` keep;
`WithinLimit`, `TradesAreTold` and `RunFollowed` say what limits, messages and
broadcasts mean, in plain ticks, prices and fields. The system interleaves
single trades of the engine with the other threads, and `Simulation` proves that
one call of `PollOrders`, `PollAcks` or `ReadOrder` is a sequence of its steps.

## What the code does not guarantee

Each is a result here: an exact condition, or an input that shows it.

- A sweep need not end. If a bid ever rested at tick 0, a sell at tick 0 larger
  than everything bid for loops forever, and only such a sell does
  (`SweepLoop.EndsExactlyWhen`; a run that gets there: `Market.TickZeroSpins`).
- A same-price update of a live order to quantity 0 is reported like any other
  and breaks the agreement of the book's structures: the entry is dead but still
  mapped and still counted (`MatchingEngine.MatchingEngine.ChangeQuantity`). From
  then on, whatever else trades, a sweep of that side never ends if and only if its limit
  reaches that tick and it wants more than is on offer there or better
  (`ZeroUpdate.HauntedEnds`, `ZeroUpdate.ZeroUpdateHangs`; two bids that show it:
  `ZeroUpdate.SecondBidZeroed`).
- A book create with a live id or quantity 0, and an increase whose price is at
  another tick, break the agreement too; nothing else does
  (`LimitedOrderBook.CreateOrder`, `LimitedOrderBook.UpdateOrderQuantity`).
- The acknowledgements of a plain delete or quantity update go by the trader id
  in the request, and a create that fills under an id trader 1 already has
  resting looks like fills of the resting order. Trader 1's picture stays right
  exactly when the request is `Faithful` (`AckReplay.ProcessRebuilt`,
  `AckReplay.ForeignDeleteHidden`).
- The gateway gives every request a fresh number, deletes included, so nothing
  rests under the number of a request that the engine has not finished
  (`System.UnfinishedIsUnknown`). An update through the gateway does nothing; a
  delete indexes the rows with {-1,-1}, which has no defined behaviour
  (`System.NextRequest`). The system results cover the states before the engine
  gets to the first delete.
- An order id survives the trip to the client exactly when it is below 2^32
  (`Gateway.OrderIdSurvives`). Quantities are cut to 32 bits on the way in.
- A printed price reads back, cut to hundredths, exactly when it is above -0.01
  (`Logger.PriceReadsBack`). Between -1 and 0 it is printed without its sign;
  from -1 down the whole part is printed as 2^64 less its size
  (`Logger.NegativePrice`).
- Fills are not broadcast, so broadcasts alone give the books only while nothing
  trades (`Tape.RunBroadcast`); with the fills they always do (`Tape.RunFollowed`).
- The two cursors, sentinels included, are not apart while an ask rests at
  tick 0 (`Market.RunInv`). Live bids are always below live asks.

Where the repository's README or comments and the code differ, the model
follows the code: the logger's stack buffer is 64 KB, not 4 KB
(header/logger.h:221), the gateway does not validate requests, and the engine
sends only the statuses N, U, D and T.

## Model

| member | source | states |
|---|---|---|
| Orders.TickMeans | header/lob_struct.h:83 | row t holds exactly the prices from t tenths up to t+1 tenths, and a tenth more is the next row |
| Orders.TickMonotone | header/lob_struct.h:83 | a higher price is never in a lower row |
| Orders.TicksApart | matching/matching.cpp:305 | prices a tenth apart are in different rows, and a higher row holds higher prices only |
| Orders.TruncMeans | header/logger.h:112 | a cast cuts toward zero, by less than one |
| PriceTime.MatchIsSweep | matching/matching.cpp:302-355 | the reference matcher hits a prefix of the price-time list within the limit, leaves only the last order hit partly filled, and stops early only when nothing left crosses |
| PriceTime.SweepIsMatch | matching/matching.cpp:297-419 | anything with those properties is the reference matcher's result: price-time priority fixes fills, residual and book |
| PriceTime.SweepWithinLimit | matching/matching.cpp:305-308 | a buy trades at no tick above its limit and a sell at none below; if some of it is left, everything left on the far side is strictly beyond the limit |
| PriceTime.SweepShape | matching/matching.cpp:302-355 | trade ticks move away from the best; no survivor is ahead of a trade; of the orders hit at most the last survives |
| PriceTime.MatchConserves | matching/matching.cpp:320-323 | what leaves the incoming order is exactly what leaves the resting side |
| PriceTime.InsertPlaces | header/lob_struct.h:80-102 | a new order goes behind every better or equal price and in front of every worse one, and moves nobody else |
| PriceTime.DecreaseKeepsPlaces | header/lob_struct.h:124-127 | a quantity decrease leaves every order in its place in the queue and changes that one quantity only |
| PriceTime.IncreaseGoesToBack | header/lob_struct.h:127-133 | an increase sends exactly that order to the back of its price; the others keep their order |
| BookRep.CoherentOk | header/lob_struct.h:23-25 | rows, lookup table and live entries that agree stand for a list in priority order with distinct ids |
| BookRep.LutIsFind | header/lob_struct.h:64-69 | the lookup table answers exactly as a search of that list: a bijection between live ids and live entries |
| BookRep.CursorIsHead | header/lob_struct.h:28-41 | the best-price cursor is the tick of the head of the list, or 0 (buy) or max_price (sell) when it is empty |
| BookRep.CreateCoherent | header/lob_struct.h:80-102 | appending, mapping, counting and raising the cursor keep all structures in agreement and insert the order into the list |
| BookRep.GrowCoherent | header/lob_struct.h:127-133 | tombstone plus append plus remapping, with the counter untouched, is remove and insert at the back |
| BookRep.BuryCoherent | header/lob_struct.h:144-156 | tombstoning removes exactly that order from the list, and the cursor is still right unless its row just emptied |
| BookRep.RowIsStretch | header/lob_struct.h:71-78 | the live entries of a row are exactly the stretch of the list at its tick, in order |
| BookRep.CountIsOrders | header/lob_struct.h:25 | a row's counter is the number of orders resting at its tick |
| OrderBook.LimitedOrderBook.constructor | header/lob_struct.h:45-62 | an empty book, all structures in agreement |
| OrderBook.LimitedOrderBook.GlideBestPrice | header/lob_struct.h:28-41 | from any cursor with nothing better in front, the glide stops at the best nonempty row or the sentinel |
| OrderBook.LimitedOrderBook.PeekOrder | header/lob_struct.h:64-69 | finds the slot of a live id, and nothing for any other id in or out of range |
| OrderBook.LimitedOrderBook.GetOrdersAtPrice | header/lob_struct.h:71-78 | null exactly at and beyond max_price; otherwise the live entries handed out are all the resting orders at that tick, oldest first |
| OrderBook.LimitedOrderBook.CreateOrder | header/lob_struct.h:80-102 | all structures agree afterwards iff the id was not live and the quantity is positive, and then the order has joined the list at its price-time place |
| OrderBook.LimitedOrderBook.UpdateOrderQuantity | header/lob_struct.h:104-135 | all structures agree afterwards iff the id was not live, or the new quantity is positive and an increase stays at the tick, and then the list is the requantified one; what the rows and the table hold in every case |
| OrderBook.LimitedOrderBook.DeleteOrder | header/lob_struct.h:137-157 | exactly that order leaves the list and all structures agree, also when a fill has already zeroed the entry |
| OrderBook.LimitedOrderBook.GetOptimalPrice | header/lob_struct.h:159-162 | the tick of the head of the list or the sentinel |
| SweepLoop.LevelThenMatch | matching/matching.cpp:315-354 | one pass over the best row is a prefix of the whole sweep |
| SweepLoop.LoopEnds | matching/matching.cpp:302-355 | unless it spins, the loop ends within one pass per resting order with the reference matcher's result |
| SweepLoop.EndsExactlyWhen | matching/matching.cpp:363-417 | the loop ends if and only if it is not a sell at tick 0, larger than all bids, on a buy book whose row 0 was ever used |
| MatchingEngine.HitIsHead | matching/matching.cpp:315-323 | the first live entry of the cursor's row is the head of the list, and hitting it is one step of the reference level |
| MatchingEngine.MatchingEngine.HitOrder | matching/matching.cpp:320-350 | one trade: both quantities fall by the smaller one, the acknowledgements are made, a filled order leaves the book, all structures agree again |
| MatchingEngine.MatchingEngine.SweepLevel | matching/matching.cpp:315-354 | the inner loop over a row with tombstones does what the reference level does to the list, while the cursor glides underneath it |
| MatchingEngine.MatchingEngine.SweepPass | matching/matching.cpp:363-417 | the body of the outer loop takes its breaks and trades exactly as the pass on the list does, spinning case included |
| MatchingEngine.MatchingEngine.AggressiveMatch | matching/matching.cpp:297-419 | the sweep ends and leaves the fills, residual, book and acknowledgements of the reference matcher |
| MatchingEngine.MatchingEngine.Ack | matching/matching.cpp:421-439 | the message is sent, or dropped when the queue was full on entry and still is; the stream sent is always the stream made less the drops |
| MatchingEngine.MatchingEngine.CreateOrder | matching/matching.cpp:135-175 | market, acknowledgements, broadcasts and what is left in the request after a create are the specified ones |
| MatchingEngine.MatchingEngine.DeleteOrder | matching/matching.cpp:239-274 | the same for a cancel, with messages made from the request or from the slot the book has just zeroed |
| MatchingEngine.MatchingEngine.ChangeQuantity | matching/matching.cpp:198-230 | the book of that side is still in step iff the new quantity is positive, and then the list is the requantified one; the U messages are sent either way |
| MatchingEngine.MatchingEngine.UpdateOrder | matching/matching.cpp:177-237 | the same as the specified update for an unknown id, a new price, a new quantity or no change; out of step exactly after a same-price update to 0 |
| MatchingEngine.MatchingEngine.ProcessOrder | matching/matching.cpp:111-126 | the dispatch does what the specified process step does, and keeps the invariant |
| MatchingEngine.MatchingEngine.ReadOrder | matching/matching.cpp:74-133 | takes the oldest request off the queue and processes it, counting its quantity down in the slot; does nothing on an empty queue |
| MatchingEngine.MatchingEngine.Serve | matching/matching.cpp:54-57 | after any number of turns the engine has done the run over the requests it took |
| MatchingEngine.MatchingEngine.CursorsAreApart | header/lob_struct.h:159-162 | best bid cursor below best ask cursor, sentinels included, iff no ask rests at tick 0 |
| MatchingEngine.MatchingEngine.FitsQueue | matching/matching.cpp:421-431 | nothing is dropped while all acknowledgements made fit the queue |
| MatchingEngine.MatchingEngine.TraderOneKnows | matching/matching.cpp:421-439 | if a faithful run makes no more acknowledgements than the queue holds, or none was dropped, those sent rebuild trader 1's orders in both books |
| ZeroUpdate.HauntedEnds | matching/matching.cpp:302-355 | on a book with one dead entry that is still mapped and counted, a sweep never ends iff its limit reaches that tick and it wants more than the total of the orders at that tick or better |
| ZeroUpdate.ZeroUpdateHangs | header/lob_struct.h:124-126 | that is the book after any same-price update of a live order to 0, and its structures disagree |
| ZeroUpdate.SecondBidZeroed | matching/matching.cpp:363-417 | two bids of 5 and 3 at one tick, the second updated to 0: a sell of 5 ends, a sell of 6 never does |
| ZeroUpdate.RowPassIsOnePass | matching/matching.cpp:363-417 | on a book whose structures agree, one pass of those loops is the pass on the list: same break, same trades, agreement kept |
| Market.ProcessInv | matching/matching.cpp:115-126 | every accepted request keeps both lists well formed and every live bid below every live ask |
| Market.RunInv | matching/matching.cpp:135-145 | the same after every run, and when the cursors are strictly apart |
| Market.ReplaceIsDeleteThenCreate | matching/matching.cpp:193-197 | an update to a new price trades and leaves the market as a delete and a create would; its D is made from the zeroed slot |
| Market.TickZeroSpins | matching/matching.cpp:363-417 | two ordinary requests at tick 0 after which the next sell at tick 0 never returns |
| Trading.WithinLimit | matching/matching.cpp:305-308 | over any request, creates and replaces alike: every fill of a buy is at its tick or below, of a sell at its tick or above, and a remainder leaves nothing within its limit on the far side |
| Trading.WithinPrice | matching/matching.cpp:367-370 | the same in prices: a buy trades with no ask a full tick above its price, and what is left of it was not wanted at its price or lower |
| Trading.ResidualIsUntraded | matching/matching.cpp:320-323 | what is left in the request is its quantity less what traded |
| Trading.ProcessProvenance | header/lob_struct.h:96 | after a request nothing rests but what rested before, with no more quantity, and the request itself: same id, price, trader and kind |
| Trading.RunProvenance | matching/matching.cpp:54-57 | over any run, whatever rests is one of the requests as it was sent, on its side, with no more than its quantity |
| Tape.TradesAreTold | matching/matching.cpp:339-347 | the T messages about the incoming order are exactly its fills in order, each at the tick of the order it hit; those about resting orders are exactly the fills of trader 1's, each at that order's own tick |
| Tape.ValueIsTold | matching/matching.cpp:401-409 | tick times quantity, summed over those T messages, is the worth of trader 1's trades |
| Tape.TakerFirst | matching/matching.cpp:339-347 | a trade of trader 1 with itself is told to the incoming side first |
| Tape.ProcessFollowed | matching/matching.cpp:276-294 | the broadcasts of a request, with its fills, turn id, price and quantity of everything resting into what rests afterwards, on both sides |
| Tape.RunFollowed | matching/matching.cpp:276-294 | the same over any run |
| Tape.RunBroadcast | matching/matching.cpp:276-294 | over a run without fills the broadcasts alone, N adding, U setting, D removing, give both books exactly |
| Tape.ProcessTells | matching/matching.cpp:162 | every broadcast changes what it tells of: none is redundant |
| Tape.NoticesMatchBroadcasts | matching/matching.cpp:261-265 | apart from trades, trader 1 is told exactly what is broadcast about its orders: id, tick of the price, quantity, kind |
| Tape.DeleteAnnounced | matching/matching.cpp:261 | a delete is announced with the price and quantity of the request, one that makes way for a new price with the old price and quantity 0 |
| Ledger.ProcessBalanced | matching/matching.cpp:135-145 | each request moves the totals of both sides by its own flow and by the same executed volume |
| Ledger.RunBalanced | matching/matching.cpp:54-57 | over any run, resting = created + increases - decreases - cancelled - executed on each side, with one executed volume for both |
| Ledger.RunOrderBalanced | matching/matching.cpp:54-57 | over any run and for every order id: submitted = traded + resting |
| AckReplay.ReplaySweep | matching/matching.cpp:339-350 | replaying the T messages of a sweep turns trader 1's view of the far side into its view of what is left |
| AckReplay.CreateRebuilt | matching/matching.cpp:162-167 | the T and N messages of a create rebuild both sides, unless it fills under an id that trader 1 already has resting on its own side: exactly then its own side is wrong |
| AckReplay.ReplaceRebuilt | matching/matching.cpp:193-197 | D, then T, then N of a replace rebuild both sides, whoever sent the request |
| AckReplay.ProcessRebuilt | matching/matching.cpp:115-126 | the messages of one accepted request rebuild trader 1's orders iff the request is faithful |
| AckReplay.RunRebuilt | matching/matching.cpp:421-439 | over any run of faithful requests the message stream, replayed from nothing, is id, side, tick and remaining quantity of every order of trader 1 |
| AckReplay.ForeignDeleteHidden | matching/matching.cpp:261-265 | trader 2 can cancel an order of trader 1 without trader 1 being told |
| RingQueue.FullTestMeans | header/lock_free_queue.h:28-31 | the full test on a possibly old copy of the read index means exactly that n-1 items were held when the copy was made |
| RingQueue.StepKeeps | header/lock_free_queue.h:28-48 | every atomic step of either thread keeps the ring invariant |
| RingQueue.StepIsFifo | header/lock_free_queue.h:28-48 | every atomic step is exactly a FIFO step: publish appends what was last filled in, release removes the head, every read returns the head, all else leaves the queue alone |
| RingQueue.EveryInterleaving | header/lock_free_queue.h:28-48 | under every interleaving, for every size: consumed is a prefix of published, at most n-1 items are held, neither ASSERT fires, the producer's slot is outside the consumer's window |
| RingQueue.SizeIsDifference | header/lock_free_queue.h:50-56 | size() of any two loaded indices is the one number below n that leads round the ring from the read to the write index; exact when nothing moved in between |
| RingQueue.WrapIsMod | header/lock_free_queue.h:36 | the index of the k-th item, found by going round the ring, is k modulo the size |
| RingQueue.PendingIsWindow | header/lock_free_queue.h:28-48 | the class and the state machine agree on what is queued |
| RingQueue.WholePublish | header/lock_free_queue.h:28-37 | get, fill, publish without interruption, wherever the consumer is: one item joins at the back, or nothing changes when n-1 are held |
| RingQueue.WholeConsume | header/lock_free_queue.h:39-48 | get, read, release without interruption: the head leaves, or nothing changes when there is none |
| RingQueue.LFQueue.GetNextToWriteTo | header/lock_free_queue.h:28-31 | null exactly when n-1 items are queued |
| RingQueue.LFQueue.UpdateWriteIndex | header/lock_free_queue.h:33-37 | publishes what was filled in at the back |
| RingQueue.LFQueue.GetNextToRead | header/lock_free_queue.h:39-42 | null exactly when empty, otherwise the slot of the oldest item |
| RingQueue.LFQueue.UpdateReadIndex | header/lock_free_queue.h:44-48 | removes the oldest item |
| RingQueue.LFQueue.Size | header/lock_free_queue.h:50-56 | the number of queued items |
| Gateway.OrderIdSurvives | order_gateway/order_gateway.cpp:194 | the order id in a user acknowledgement is the client's modulo 2^32, and equal to it iff it fits |
| Gateway.IdsStayApart | order_gateway/order_gateway.cpp:70-73 | turning a client's order id into a signed number keeps different ids different |
| Gateway.TranslationIsStable | order_gateway/order_gateway.cpp:65-79 | both translations keep their answers whatever is assigned later, and are inverse on every order id seen |
| Gateway.RequestFields | order_gateway/order_gateway.cpp:123-128 | the forwarded request has the client's price, trader, side and kind, its quantity modulo 2^32, and the new number |
| Gateway.OrderGateway.AssignSystemId | order_gateway/order_gateway.cpp:70-75 | hands out 0, 1, 2, ...; the map keeps the first number of each order id |
| Gateway.OrderGateway.SystemToOrderId | order_gateway/order_gateway.cpp:65-68 | for every number handed out, the order id it was handed out for; -1 outside the table |
| Gateway.OrderGateway.GetSystemId | order_gateway/order_gateway.cpp:77-79 | the first number given to an order id, -1 if never seen |
| Gateway.OrderGateway.ForwardOrder | order_gateway/order_gateway.cpp:95-152 | numbers the order, and forwards it exactly when the engine's queue has room, with the client's price, trader, side and kind |
| Gateway.OrderGateway.PollOrders | order_gateway/order_gateway.cpp:156-170 | takes the oldest client order, or does nothing |
| Gateway.OrderGateway.PollAcks | order_gateway/order_gateway.cpp:176-212 | moves the oldest acknowledgement, translated, exactly when there is one and the user's queue has room; otherwise nothing moves |
| System.NextRequest | order_gateway/order_gateway.cpp:112 | the gateway's numbering discharges the engine's demands on the next request, exactly unless it is a delete |
| System.StepKeeps | order_gateway/order_gateway.cpp:93-214 | every step of client, gateway or engine, down to one trade of a sweep, keeps the invariant: each client's orders are numbered once and in order, the market is the run over the finished requests plus the trades of the sweep going on, acknowledgements are those made less the drops (up to the first delete) |
| System.EndToEnd | order_gateway/order_gateway.cpp:95-211 | in every state of every interleaving, mid-sweep included, every order a client ever submitted waits in its queue or has its own number; the engine's request is that order field by field, what rests under its number has its price, trader and side, and a create's quantity (mod 2^32) = still to be matched + traded + resting, or all three are 0 if there was no room to forward it (up to the first delete) |
| System.BooksAfter | order_gateway/order_gateway.cpp:123-128 | in every state, every resting order has price, trader and kind of the client order under its number, bids and asks each on their side |
| System.EveryUserAck | order_gateway/order_gateway.cpp:193-197 | every user acknowledgement translates the engine's at the same place and names, mod 2^32, the order that a client submitted under that number |
| System.UserAcksArePrefix | order_gateway/order_gateway.cpp:192-211 | under any queue-full pattern, user acknowledgements are the translation of a prefix of what the engine sent, once each and in order; the engine sent what found room of its run's acknowledgements, sweep by sweep |
| System.UnfinishedIsUnknown | order_gateway/order_gateway.cpp:112 | nothing rests, on either side, under the number of a request that the engine has not finished: deletes and updates that come through the gateway never name a live order |
| Simulation.PublishItem | header/lock_free_queue.h:28-37 | the class's publication is the ring's six steps, and contents are what is pending |
| Simulation.ConsumeItem | header/lock_free_queue.h:39-48 | the same for its consumption |
| Simulation.Boot | main.cpp:19-31 | the objects wired together at the start, every queue with n slots, are the system's initial state |
| Simulation.PollOrders | order_gateway/order_gateway.cpp:156-170 | one order polled is exactly the steps take and release of the system, or none |
| Simulation.PollAcks | order_gateway/order_gateway.cpp:176-212 | one acknowledgement moved is exactly the steps publish and release, or none |
| Simulation.SweepSteps | matching/matching.cpp:302-355 | the rest of any sweep, whatever finds room, is a sequence of single trades and a finish |
| Simulation.ReadOrder | matching/matching.cpp:74-133 | one turn of the engine object is a sequence of steps of the system, trade by trade, ending in the state the object is in |
| Logger.DigitsParse | header/logger.h:78-100 | digits have no leading zero and parse back to the value |
| Logger.SampleDigits | header/logger.h:78-100 | 0, 9, 10 and 907 as they are written |
| Logger.ParseDigits | header/logger.h:78-100 | every such string is the digits of what it parses to |
| Logger.DigitsFit | header/logger.h:82 | no 64-bit value needs more than 20 characters |
| Logger.ConvertU64ToStr | header/logger.h:78-100 | appends exactly the digits of the value to what is in the buffer |
| Logger.FloatToChar | header/logger.h:112-123 | appends the integer part, a point and two digits |
| Logger.PriceReadsBack | header/logger.h:112-123 | the printed price is the price cut to hundredths iff the price is above -0.01 |
| Logger.NegativePrice | header/logger.h:112-123 | a price between -1 and 0 prints as its opposite; from -1 down the whole part prints as 2^64 less its size |
| Logger.WriteUserOrder | header/logger.h:125-150 | appends exactly the record text, in at most 225 characters |
| Logger.WriteLOBOrder | header/logger.h:152-178 | the same for engine orders |
| Logger.WriteLOBAck | header/logger.h:180-197 | the same for engine acknowledgements |
| Logger.WriteUserAck | header/logger.h:199-216 | the same for user acknowledgements |
| Logger.SampleUserOrder | header/logger.h:125-150 | a user order as its lines stand in the file |
| Logger.SampleLOBOrder | header/logger.h:152-178 | an engine order as its lines stand in the file |
| Logger.SampleLOBAck | header/logger.h:180-197 | an engine acknowledgement as its lines stand in the file |
| Logger.SampleUserAck | header/logger.h:199-216 | a user acknowledgement as its lines stand in the file |
| Logger.SampleHead | header/logger.h:234-239 | the two lines every record begins with |
| Logger.WriteBody | header/logger.h:241-287 | the switch writes the record its log id calls for |
| Logger.BodyEnds | header/logger.h:241-287 | records with log id 1 to 5 end in a blank, all others do not; an unknown id writes no fields |
| Logger.DrainBatch | header/logger.h:218-301 | for any queue and limit the cursor stays in the 65536-byte buffer; the file gets exactly the texts of the records taken, in order; with a limit of at most 180 exactly min(limit, queued) records are taken, and otherwise the batch stops only at the limit, an empty queue or the reserve |
| LogReader.RecordReadsBack | header/logger.h:125-287 | from the text of any record a reader recovers log id, timestamp and every field it was written from, prices in hundredths, whatever characters the fields hold and whatever was written before |
| LogReader.BatchReadsBack | header/logger.h:218-301 | from the text of a whole batch it recovers every record, in order |

## Left out

- Orders.Tick: works on real numbers, so the float rounding of `price * 10` and of a tick stored in a float is not modelled; a negative tick (undefined in the C++) is excluded.
- Logger.FloatToChar: works on real numbers, so the float rounding of `(num - int_part) * 100` is not modelled: a product that rounds up may print one hundredth more than here (the float nearest to 0.29 prints as 0.29, here as 0.28).
- Logger.PriceReadsBack: the same rounding is left out here.
- OrderBook.LimitedOrderBook.DeleteOrder: requires a live id, because the source indexes the rows with the {-1,-1} entry otherwise (header/lob_struct.h:139-148, where the bound test is also off by one); slot numbers above 2^31, which it would truncate to int, are not modelled.
- OrderBook.LimitedOrderBook.CreateOrder: requires a tick inside the book and an id inside the lookup table, past whose ends the source writes (header/lob_struct.h:83-99).
- MatchingEngine.MatchingEngine.DeleteOrder: requires a live id, for the same reason as the book's.
- MatchingEngine.MatchingEngine.ProcessOrder: requires a request that Market.Accepts: no delete of an id that is not live, no sweep that spins, no remainder that rests outside the book or under a live id, and no same-price update to quantity 0. What the last does is in UpdateOrder and ZeroUpdate, but runs do not go on after it.
- MatchingEngine.MatchingEngine.Ack: the acknowledgement queue is what was put into it and how much of that is unread, not an LFQueue object.
- MatchingEngine.MatchingEngine.ReadOrder: the last read of the released slot (matching/matching.cpp:131) is of a cycle counter and is left out with the counters. The gateway reads a slot after publishing it (order_gateway/order_gateway.cpp:148) and the queue example uses one after releasing it (ExamplesAndTesting/lock_free_queue/LFQ_Implementation_example.cpp:88); the ownership results hold for the get, use, update order only.
- MatchingEngine.MatchingEngine.Serve: covers the requests that are queued when it starts; requests that arrive in between are covered by System and Simulation.ReadOrder.
- MatchingEngine.MatchingEngine.ChangeInQuantity: the spin-wait for room in the broadcast queue (matching/matching.cpp:280-284) is taken to succeed; nothing in the repository drains that queue.
- ZeroUpdate.HauntedEnds: covers one such entry on a side; two updates to 0 on the same side are not covered.
- Gateway.OrderGateway.AssignSystemId: requires a free place in the table; the source writes past its end.
- Gateway.OrderGateway.ForwardOrder: requires the same free place.
- Gateway.OrderGateway.PollOrders: requires the same when there is an order to take; System.Take stops there.
- RingQueue.EveryInterleaving: the index accesses are sequentially consistent, as std::atomic is by default; only the two loads of size() are independent. A queue of 0 elements (a division by zero) is excluded.
- System.ClientOk: every System result is for clients that ask for a tick inside the book and never bid at tick 0, where the sweep may not end; and for a lookup table of the engine at least as large as the gateway's.
- System.StepKeeps: one trade with its acknowledgements is one step, and so is resting the remainder; the queues between the threads are FIFOs (RingQueue.StepIsFifo). Nothing is claimed after the first delete reaches the engine.
- Simulation.ReadOrder: requires that the next request is not a delete.
- Logger.DrainBatch: a record whose payload does not match its log id (std::get throws) is excluded; the logger thread, which stops without a last drain (header/logger.h:69-76), the file stream and the log queues of engine and gateway are not modelled, and nothing is claimed about every event being logged.
- Cycle counters, compiler barriers, latency vectors and benchmark output, start and terminate flags, thread pinning and pre-warming.
- header/memoryPool.h: it does not compile and nothing uses it.
- alpha_tester.cpp, main.cpp and the examples: only the wiring of the queues was taken from them.
