# hftbacktest Live Client — a Dafny model

This project models the sequential core of the Python live-trading client of hftbacktest
(`py-hftbacktest/hftbacktest/live/`) and proves what it promises:

- **Event models** (`models.py`, module `Models` in `models.dfy`). `Side` and `EventType`
  with their integer codes. `Trade.from_event` picks the side from the buy bit 0x01.
  `BookUpdate.from_depth` copies the best bid and ask. `DepthSnapshot.from_depth` keeps the
  levels with a positive quantity, splits them by the buy bit, and sorts bids by descending
  and asks by ascending price.
- **Bounded queues** (`fifo.dfy`, module `Fifos`). Python's `Queue(maxsize=n)`, as the client
  uses it, is a value: `put_nowait` drops the item when the queue is full, `get_nowait`
  reports an empty queue. A non-positive `maxsize` means unbounded, as in Python.
- **Feed demultiplexer** (`feed.dfy`, module `Feed`). The pure content of
  `_process_market_feed` for one asset. Each buffered event is classified by its flags,
  trade first, then depth or BBO, then snapshot. It is turned into its typed value and
  offered to the matching queue.
- **Health pass** (`health.dfy`, module `Health`). The pure content of `_update_health`:
  the fold of per-asset latency samples into a new `ConnectionHealth`, and the
  connected-to-disconnected edge that fires the connection-lost callback.
- **Synthetic Bot** (`stub.py`, module `Stub` in `stub.dfy`). `StubConnectorBot` is a class:
  - an order table with duplicate-id rejection (code 10) and cancel-not-found (code 12);
  - a position;
  - a poll counter that ends the stream (code 1) after 1000 polls or once closed;
  - the ready/timeout decision of `wait_next_feed`;
  - a simulated clock and fixed latencies.
  `StubOrderDict` is its order iterator.
- **Live client** (`client.py`, module `Client` in `client.dfy`). `LiveClient` is a class
  driving a `StubConnectorBot`. It covers:
  - the lifecycle flags of `start`, `stop` and `close`;
  - the order-id counter;
  - `submit_order` and `cancel_order`, with `_decode_error`;
  - `get_orders`;
  - the non-blocking queue reads;
  - one feed-processing pass and one health pass;
  - the feed worker's polling loop.
  Each worker iteration is one method call.
- **Decimal rendering** (`decimal.dfy`, module `Decimal`). Python's `str(int)`, which
  `_decode_error` uses for "Unknown error code: N", together with a parser. This shows the
  rendering loses nothing.

Modelling choices:

- **Event flag constants.** `TRADE_EVENT`, `DEPTH_EVENT`, `DEPTH_BBO_EVENT` and
  `DEPTH_SNAPSHOT_EVENT` come from the package root, whose values are not part of this
  model. They are the `EventMasks` record a client is built with. Every statement holds
  for any values of these bits.
- **Randomness.** The stub's random choices are parameters, each restricted to the range
  the source draws it from (`FeedDraw`, `fill`). These choices are:
  - whether a poll generates a trade or a depth move;
  - the drawn prices and quantities;
  - the clock advance;
  - whether an order fills at once.
- **Health samples.** The health pass takes the latency samples that the Bot's accessors
  returned for each asset. An absent sample is a falsy answer or an exception, which the
  source logs and skips. The stub always answers; `Client.StubHealthConnected` shows that
  against it the pass always finds the connection up.
- **Order table.** The stub's `_orders` dict keeps insertion order. It is an association
  list with distinct ids.
- **Bid order.** The code sorts bids by price with `reverse=True`, so equal prices may
  remain side by side. The model states that bids are non-increasing, not strictly
  descending.
- **End of the stream.** The stub ends the stream at the 1001st poll of a fresh Bot, which
  is the first poll whose counter exceeds 1000 (`Client.PollsToEnd`,
  `Client.LiveClient.RunFeedWorker`). The repository test `test_stub_max_feeds` counts the ending poll too and asserts
  `1000 > feed_count`, so it expects end of data by poll 999 at the latest, while the code ends
  it at poll 1001. The model follows the code.
- **Flag dispatch.** The if/elif chain on the flags is written once, as `Feed.Classify`.
  `Client.LiveClient.DispatchEvent` branches on its result.

## Model

| member | source | states |
|---|---|---|
| Models.SideOf | py-hftbacktest/hftbacktest/live/models.py:14-16 | a side exists exactly for codes 1 and -1, and has that code |
| Models.SideRoundTrip | py-hftbacktest/hftbacktest/live/models.py:14-16 | BUY is 1 and SELL is -1: each side's code maps back to the side |
| Models.EventTypeOf | py-hftbacktest/hftbacktest/live/models.py:6-11 | an event type exists exactly for codes 1..5, and has that code |
| Models.EventTypeRoundTrip | py-hftbacktest/hftbacktest/live/models.py:6-11 | each event type's code maps back to it |
| Models.TradeFromEvent | py-hftbacktest/hftbacktest/live/models.py:28-35 | timestamp, price, qty and asset are copied; the side is BUY iff `ev & 0x01 != 0` |
| Models.BookUpdateFromDepth | py-hftbacktest/hftbacktest/live/models.py:53-62 | the four best bid/ask fields are the depth's; the timestamp is the argument |
| Models.SideLevelsMembership | py-hftbacktest/hftbacktest/live/models.py:78-85 | a level is in the bid (ask) list iff some listed level with qty > 0 and the buy bit set (clear) has that price and qty |
| Models.KeptLevels | py-hftbacktest/hftbacktest/live/models.py:80-81 | the levels that pass the `qty > 0` test, no more than listed, all with positive quantity |
| Models.SidesPartitionKept | py-hftbacktest/hftbacktest/live/models.py:78-85 | bids and asks together are exactly the kept levels, as a multiset and in number |
| Models.SideLevels | py-hftbacktest/hftbacktest/live/models.py:78-85 | the bid (ask) list the loop builds is no longer than the listing, and every level in it has qty > 0 |
| Models.InsertLevel | py-hftbacktest/hftbacktest/live/models.py:87-88 | inserting into a list adds exactly that element |
| Models.InsertLevelSorted | py-hftbacktest/hftbacktest/live/models.py:87-88 | inserting into a sorted list keeps it sorted |
| Models.SortLevels | py-hftbacktest/hftbacktest/live/models.py:87-88 | the result is sorted by price (descending or ascending) and is a permutation of the input |
| Models.SnapshotFromDepth | py-hftbacktest/hftbacktest/live/models.py:73-95 | bids non-increasing, asks non-decreasing, each a permutation of its side's kept levels; all quantities positive; bids ++ asks is a permutation of the kept levels |
| Decimal.NatToString | py-hftbacktest/hftbacktest/live/client.py:446 | the rendering of a natural number is a non-empty digit string that starts with '0' iff the number is 0 (so "0" is the only rendering with a leading zero) |
| Decimal.IntToString | py-hftbacktest/hftbacktest/live/client.py:446 | the rendering is well-formed and canonical (no leading zero, no "-0") and starts with '-' iff the number is negative |
| Decimal.NatRoundTrip | py-hftbacktest/hftbacktest/live/client.py:446 | parsing the digits of n gives n |
| Decimal.IntRoundTrip | py-hftbacktest/hftbacktest/live/client.py:446 | parsing the rendering of any integer gives it back |
| Decimal.IntToStringInjective | py-hftbacktest/hftbacktest/live/client.py:446 | two integers with the same rendering are equal |
| Decimal.CanonicalDigitsAreRendering | py-hftbacktest/hftbacktest/live/client.py:446 | a canonical digit string is exactly the rendering of the number it denotes |
| Decimal.CanonicalIsRendering | py-hftbacktest/hftbacktest/live/client.py:446 | a canonical text is exactly `str` of the integer it parses to: no other text is canonical and parses to that integer |
| Fifos.Fifo.PutNowait | py-hftbacktest/hftbacktest/live/client.py:170-173 | appends iff the queue is not full, else leaves it unchanged; capacity is never exceeded |
| Fifos.Fifo.GetNowait | py-hftbacktest/hftbacktest/live/client.py:295-299 | None iff empty, with the queue unchanged; otherwise the oldest item, removed from the front |
| Fifos.EmptyFifo | py-hftbacktest/hftbacktest/live/client.py:51-53 | a new queue is empty, within its capacity, and has the given maxsize |
| Fifos.PutAllKeepsEarliest | py-hftbacktest/hftbacktest/live/client.py:165-191 | offering a batch keeps the old items and the earliest offered items that fit, in order, and drops the rest |
| Fifos.DrainYieldsItems | py-hftbacktest/hftbacktest/live/client.py:295-311 | repeated `get_nowait` until None yields the queue's items, oldest first |
| Fifos.FifoRoundTrip | py-hftbacktest/hftbacktest/live/client.py:51-53 | what is put into an empty queue with room for it comes back out in the same order |
| Feed.Dispatch | py-hftbacktest/hftbacktest/live/client.py:166-191 | an event touches at most the one queue its flags select; capacities and their bounds are kept |
| Feed.DemuxEvents | py-hftbacktest/hftbacktest/live/client.py:165-191 | a whole buffer pass keeps the queues' capacities and bounds |
| Feed.RoutesPartition | py-hftbacktest/hftbacktest/live/client.py:168-191 | every event takes exactly one route (trades, books, snapshots or none) |
| Feed.Classify | py-hftbacktest/hftbacktest/live/client.py:168-184 | the if/elif precedence: trades iff a trade bit is set; books iff no trade bit and a depth or BBO bit; snapshots iff neither and the snapshot bit; otherwise nowhere |
| Feed.DemuxIsPutAllPerChannel | py-hftbacktest/hftbacktest/live/client.py:165-191 | the pass is, queue by queue, a batch of non-blocking puts of exactly the values routed there, in buffer order |
| Feed.DemuxChannels | py-hftbacktest/hftbacktest/live/client.py:165-191 | each queue ends as its old items plus the earliest routed values that fit; a full queue drops only the overflow |
| Feed.OfferedTimestamps | py-hftbacktest/hftbacktest/live/client.py:175-187 | book updates and snapshots carry their event's `exch_ts` and the asset number |
| Health.HealthPass | py-hftbacktest/hftbacktest/live/client.py:214-249 | connected iff some asset returned a feed sample; the feed latency and time are present exactly then; the order latency and time are present together |
| Health.Absorb | py-hftbacktest/hftbacktest/live/client.py:224-236 | one asset's step: a feed sample sets connected and overwrites the feed latency (`local_ts - exch_ts`) and time; an order sample overwrites the order latency (`resp_ts - req_ts`) and time; an absent sample leaves its fields as they were |
| Health.LastFeedReporter | py-hftbacktest/hftbacktest/live/client.py:223-230 | the index returned is an asset with a feed sample after which none has one; None only when no asset has one |
| Health.LastOrderReporter | py-hftbacktest/hftbacktest/live/client.py:232-236 | the same for order samples |
| Health.FeedFromLastReporter | py-hftbacktest/hftbacktest/live/client.py:223-230 | disconnected when no asset reported; otherwise connected, with feed latency `local_ts - exch_ts` and last feed time `local_ts` of the last asset that reported |
| Health.OrderFromLastReporter | py-hftbacktest/hftbacktest/live/client.py:232-236 | no order latency or time when no asset reported one; otherwise `resp_ts - req_ts` and `resp_ts` of the last asset that did |
| Health.FiredAt | py-hftbacktest/hftbacktest/live/client.py:241-254 | a pass fires the callback iff the snapshot before it was connected and its own is not |
| Health.OneFirePerOutage | py-hftbacktest/hftbacktest/live/client.py:241-254 | a run of disconnected passes fires once if it follows a connected snapshot, else never |
| Health.FiringsSeparatedByReconnect | py-hftbacktest/hftbacktest/live/client.py:241-254 | between two firings some pass found the connection up |
| Stub.Without | py-hftbacktest/hftbacktest/live/stub.py:263 | removing an id keeps exactly the other orders, in order, one fewer when present, and nothing changes when absent |
| Stub.StubOrderDict.constructor | py-hftbacktest/hftbacktest/live/stub.py:48-50 | a new iterator holds the table and has not started |
| Stub.StubOrderDict.Values | py-hftbacktest/hftbacktest/live/stub.py:52-54 | `values()` starts the iteration from the first entry and returns the same object |
| Stub.StubOrderDict.Next | py-hftbacktest/hftbacktest/live/stub.py:56-60 | returns the next entry and advances, so each entry is yielded once in table order; None once exhausted |
| Stub.StubConnectorBot.constructor | py-hftbacktest/hftbacktest/live/stub.py:78-103 | one asset, empty table, position 0, the default depth, an empty buffer, count 0, the starting clock |
| Stub.StubConnectorBot.Close | py-hftbacktest/hftbacktest/live/stub.py:105-108 | sets closed and returns 0 |
| Stub.StubConnectorBot.WaitNextFeed | py-hftbacktest/hftbacktest/live/stub.py:110-149 | 1 iff closed (count untouched) or the count passes 1000; otherwise the drawn events are appended, the depth moves, the clock strictly increases, and 2 iff the buffer is non-empty or the count is a multiple of 5, else 0 |
| Stub.StubConnectorBot.GenerateSyntheticTrade | py-hftbacktest/hftbacktest/live/stub.py:297-317 | appends one trade event stamped with the clock, flag 0x01 for a buy and 0x02 for a sell |
| Stub.StubConnectorBot.UpdateSyntheticDepth | py-hftbacktest/hftbacktest/live/stub.py:319-341 | best bid and ask move to half a spread either side of the new mid; a snapshot event (0x04) is appended |
| Stub.StubConnectorBot.ClearLastTrades | py-hftbacktest/hftbacktest/live/stub.py:155-157 | the buffer is empty |
| Stub.StubConnectorBot.LastTrades | py-hftbacktest/hftbacktest/live/stub.py:150-152 | the one buffer whatever the asset; each of its events is well formed and stamped before the clock |
| Stub.StubConnectorBot.Depth | py-hftbacktest/hftbacktest/live/stub.py:158-160 | the one depth whatever the asset, with best bid below best ask |
| Stub.StubConnectorBot.Position | py-hftbacktest/hftbacktest/live/stub.py:162-164 | the one position whatever the asset |
| Stub.StubConnectorBot.CurrentTimestamp | py-hftbacktest/hftbacktest/live/stub.py:292-295 | the simulated clock |
| Stub.StubConnectorBot.Orders | py-hftbacktest/hftbacktest/live/stub.py:167-169 | a fresh iterator over the current table |
| Stub.StubConnectorBot.SubmitBuyOrder | py-hftbacktest/hftbacktest/live/stub.py:171-207 | 10 with table and position unchanged for a known id; else 0, exactly one new order with side 1, either accepted (`leaves_qty = qty`) or filled (`leaves_qty = 0`, position + qty) |
| Stub.StubConnectorBot.SubmitSellOrder | py-hftbacktest/hftbacktest/live/stub.py:209-245 | the same for side -1, a fill moving the position by -qty |
| Stub.StubConnectorBot.Cancel | py-hftbacktest/hftbacktest/live/stub.py:247-264 | 12 with the table unchanged for an unknown id; else 0 and exactly that id removed |
| Stub.StubConnectorBot.FeedLatency | py-hftbacktest/hftbacktest/live/stub.py:266-275 | (now - 100000, now): the exchange time is strictly before the local time |
| Stub.StubConnectorBot.OrderLatency | py-hftbacktest/hftbacktest/live/stub.py:277-290 | (now - 2 ms, now - 1 ms, now): strictly increasing, one round-trip leg apart |
| Stub.OrderLifecycle | py-hftbacktest/tests/test_python_live_connector_example.py:96-109 | on a fresh stub, a submitted order is listed with side 1; after cancelling it the listing is empty |
| Client.DecodeError | py-hftbacktest/hftbacktest/live/client.py:434-446 | every code decodes to a non-empty message |
| Client.DecodeErrorTable | py-hftbacktest/hftbacktest/live/client.py:436-446 | the eight table codes give their fixed messages; 999 gives "Unknown error code: 999" |
| Client.DecodeErrorUnknown | py-hftbacktest/hftbacktest/live/client.py:446 | any other code gives "Unknown error code: " followed by a canonical decimal text that parses back to the code, which by `Decimal.CanonicalIsRendering` is `str(code)` and nothing else |
| Client.DecodeErrorInjective | py-hftbacktest/hftbacktest/live/client.py:434-446 | distinct codes give distinct messages |
| Client.ResponseFor | py-hftbacktest/hftbacktest/live/client.py:348-361 | the id and asset are echoed; code 0 gives the success status with no error; any other code gives status error with the decoded message |
| Client.StubHealthConnected | py-hftbacktest/hftbacktest/live/client.py:223-236 | a pass over what the Bot's `feed_latency` and `order_latency` answer is connected, with feed latency 100000 ns and order latency 2000000 ns, both stamped with the Bot's clock |
| Client.StubSamples | py-hftbacktest/hftbacktest/live/client.py:223-236 | the samples of a pass against the stub are, asset by asset in order, what its `feed_latency` and `order_latency` answer |
| Client.PollsToEnd | py-hftbacktest/hftbacktest/live/stub.py:124-132 | the end of data comes at poll 1001 on a fresh Bot, and never before the first poll |
| Client.PollCode | py-hftbacktest/hftbacktest/live/stub.py:124-149 | a poll answers 0, 1 or 2; 1 exactly when the Bot is closed or the count has reached 1000; 0 only with nothing buffered |
| Client.Poll | py-hftbacktest/hftbacktest/live/client.py:130-149 | one worker iteration keeps the queues' capacities and bounds, leaves the buffer empty unless the poll ended the data, and touches the queues only on code 2 |
| Client.Polls | py-hftbacktest/hftbacktest/live/client.py:129-156 | a run of worker iterations keeps the queues' capacities and bounds |
| Client.PollOnlyAppends | py-hftbacktest/hftbacktest/live/client.py:130-149 | one iteration never removes or reorders queued items: each queue's old items are a prefix of its new ones |
| Client.PollsOnlyAppend | py-hftbacktest/hftbacktest/live/client.py:127-156 | over any run of the worker, each queue's old items stay a prefix of its items |
| Client.PollsWhenClosed | py-hftbacktest/hftbacktest/live/stub.py:124-125 | polling a closed Bot changes nothing, however often |
| Client.PollsCount | py-hftbacktest/hftbacktest/live/stub.py:128-132 | an open Bot counts every poll, including those past the end of data, and stays open |
| Client.LiveClient.constructor | py-hftbacktest/hftbacktest/live/client.py:32-67 | empty queues with the given capacities, not running, no stop request, disconnected health, counter at 1 |
| Client.LiveClient.Start | py-hftbacktest/hftbacktest/live/client.py:69-90 | "Client already running" iff it was running; otherwise clears the stop request; running afterwards |
| Client.LiveClient.Stop | py-hftbacktest/hftbacktest/live/client.py:92-105 | nothing changes when not running; otherwise the stop is requested; not running afterwards |
| Client.LiveClient.Close | py-hftbacktest/hftbacktest/live/client.py:107-117 | not running afterwards and the Bot is closed; the stop is requested only if the client was running, otherwise the stop request is untouched |
| Client.LiveClient.GetTradeNowait | py-hftbacktest/hftbacktest/live/client.py:295-299 | None iff the trade queue is empty, changing nothing; otherwise its oldest item, removed |
| Client.LiveClient.GetBookUpdateNowait | py-hftbacktest/hftbacktest/live/client.py:301-305 | the same for the book queue |
| Client.LiveClient.GetSnapshotNowait | py-hftbacktest/hftbacktest/live/client.py:307-311 | the same for the snapshot queue |
| Client.LiveClient.GenerateOrderId | py-hftbacktest/hftbacktest/live/client.py:318-322 | returns the counter, which is larger than every earlier id, and advances it by exactly 1 |
| Client.LiveClient.SubmitOrder | py-hftbacktest/hftbacktest/live/client.py:324-370 | an id is generated only when none is given; a given id is echoed and the counter stays; side BUY goes down the buy path (side 1); status submitted with no error, or "Order ID already exists" with the Bot unchanged |
| Client.LiveClient.CancelOrder | py-hftbacktest/hftbacktest/live/client.py:372-403 | the id is echoed; cancelled with no error and the order removed, or error "Order not found" with the table unchanged |
| Client.LiveClient.GetOrders | py-hftbacktest/hftbacktest/live/client.py:412-432 | the keys are exactly the Bot's order ids, each mapped to that order's fields, with side "buy" iff the side code is BUY |
| Client.Info | py-hftbacktest/hftbacktest/live/client.py:421-428 | the listed dict copies id, price, qty, leaves qty and status; side is "buy" iff the side code is BUY, else "sell" |
| Client.LiveClient.GetPosition | py-hftbacktest/hftbacktest/live/client.py:405-410 | the Bot's position |
| Client.LiveClient.CurrentHealth | py-hftbacktest/hftbacktest/live/client.py:313-316 | the snapshot the last health pass stored |
| Client.LiveClient.DispatchEvent | py-hftbacktest/hftbacktest/live/client.py:165-191 | one event goes to the queue its flags select, built from the current depth, and is dropped when that queue is full |
| Client.LiveClient.ProcessMarketFeed | py-hftbacktest/hftbacktest/live/client.py:158-196 | the queues end as the demultiplexing of the whole buffer, in buffer order; the buffer is cleared |
| Client.LiveClient.UpdateHealth | py-hftbacktest/hftbacktest/live/client.py:214-254 | the stored health is a brand-new pass over the samples; the callback fires iff `Health.ConnectionLost` holds between the old and new snapshot |
| Client.LiveClient.UpdateHealthRepeatedly | py-hftbacktest/hftbacktest/live/client.py:201-254 | over successive health passes the callback flags are exactly `Health.Fired` of the passes' connected flags from the stored snapshot, and the stored health is the last pass (so `OneFirePerOutage` and `FiringsSeparatedByReconnect` hold for the client) |
| Client.LiveClient.FeedWorkerStep | py-hftbacktest/hftbacktest/live/client.py:130-149 | one poll moves the client and Bot to `Client.Poll` of the old state, with code `Client.PollCode`: on 1 the buffer, depth and clock are unchanged and the loop ends; otherwise the depth moves by the draw, the clock advances by it, the buffer ends empty, and the code is 2 exactly when the buffer plus the new events is non-empty or the count is a multiple of 5, in which case the queues receive the demultiplexing of that buffer against the new depth; on 0 and 1 the queues are unchanged |
| Client.LiveClient.RunFeedWorker | py-hftbacktest/hftbacktest/live/client.py:127-156 | no poll with a stop pending; otherwise the loop ends exactly at poll `PollsToEnd` (1001 on a fresh Bot), or runs out of draws before it; the queues and the Bot's feed state end as `Client.Polls` over the draws used, so unchanged when no poll is made |
| Client.FreshClientIds | py-hftbacktest/tests/test_live_client.py:432-445 | on a fresh client, three successive ids are 1, 2 and 3 |
| Client.DuplicateOrderRejected | py-hftbacktest/tests/test_python_live_connector_example.py:113-127 | on a fresh stub, an order is submitted and the same id again is rejected; the cited test checks only the Bot's code 10, and the model adds the client's message "Order ID already exists", which `submit_order` builds from `_decode_error(10)` (client.py:348-361, 435-446) |
| Client.CancelUnknownOrder | py-hftbacktest/tests/test_live_client.py:369-383 | cancelling an id never submitted gives status error with "Order not found" |

## Left out

- Threads, the stop event's waiting, locks, `join` timeouts and daemon flags are left out. Each worker iteration is one sequential method call. The locks only serialise what the model already does atomically. `stop` is modelled as setting the stop request. `RunFeedWorker` reads it once, before its first poll, since nothing can set it while the loop runs sequentially.
- The async `get_trade`, `get_book_update` and `get_snapshot` are left out, because they are blocking `Queue.get` calls with a timeout run in an executor. All logging is left out too.
- The health worker's timing is left out: the interval wait and the stop check between passes. Its successive passes are `Client.LiveClient.UpdateHealthRepeatedly`.
- The `on_error` callback and the exception paths of `_feed_worker`, `submit_order`, `cancel_order`, `get_position` and `get_orders` are left out. The stub never raises on these paths.
- `_process_market_feed` has an exception path the model does not capture. The stub's snapshot event has no `px` or `qty`. If the trade mask included bit 0x04, `Trade.from_event` would raise on it. The rest of that asset's buffer would then be skipped and the buffer not cleared. The model gives such an event price and quantity 0.0.
- `_process_order_response` is a no-op, so code 3 is handled by doing nothing. Other codes would reach the `on_error` path, which is left out. The stub returns neither.
- Stub.StubOrderDict.Next: requires `values()` to have been called first; in Python `next()` before `values()` raises a TypeError on `None`, and every caller calls `values()` first.
- Stub.StubOrderDict: iterates a copy of the table, not the live dict. `get_orders` does not change the table while iterating, so nothing observable is lost.
- The stub's random number generation is not modelled: `random.random`, `gauss`, `uniform`, `randint` and seeding. Their outcomes are parameters restricted to their ranges. The trade price and the new mid are unconstrained.
- The float arithmetic of the mid, the spread and the position is modelled with exact `real` arithmetic.
- Models.SortLevels: does not prove stability; equal prices keep their listing order in Python's stable sort. The insertion sort used does keep that order, but only sortedness and permutation are stated.
- Models.SnapshotFromDepth: inherits that gap, so the order of equal-price levels within the bids or the asks is not stated.
- The `time.time()` reading that starts the stub's clock is the constructor parameter `startNs`.
- Unused stub fields are left out: `_order_count`, `_start_time`, `_base_price`.
- `_spread_base` is the constant 1.0 (`Stub.SPREAD_BASE`), which scales the spread range 0.5..1.5 of `FeedDraw.Valid`. `_price_volatility` only scales the two Gaussian draws of the trade price and the new mid, which are unconstrained parameters.
- The context manager (`__enter__` / `__exit__`) is `Start` followed by `Close`.
- The client's `current_timestamp` and `num_assets` properties are plain reads of the Bot (`Stub.StubConnectorBot.CurrentTimestamp`, the `numAssets` field).
- The `LIVE_AVAILABLE` import check and the native binding Bots are left out. Those Bot classes are not part of this model; the client is modelled against the stub.
- `connector_runner.py`, the Bybit client and module, the examples and `live/__init__.py` are process, network and console plumbing outside the client's logic.
- The package's `BUY` constant is taken to be 1, the value of `Side.BUY` and of the stub's buy side.
- The `OrderRequest` record is declared but not used by any modelled operation.
