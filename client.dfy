/**
 * `LiveClient` (hftbacktest/live/client.py) driving a `StubConnectorBot`: lifecycle flags,
 * the order-id counter, the order gateway with its error decoding, the order listing, one
 * feed-demultiplexing pass, one health pass, and the feed worker's polling loop, each
 * worker iteration being one method call.
 */
module Client {
  import opened Models
  import opened Decimal
  import opened Fifos
  import opened Feed
  import opened Health
  import opened Stub

  const DEFAULT_TRADE_QUEUE_SIZE: int := 1000
  const DEFAULT_BOOK_QUEUE_SIZE: int := 1000
  const DEFAULT_SNAPSHOT_QUEUE_SIZE: int := 100
  const DEFAULT_FEED_TIMEOUT_NS: int := 10_000_000_000

  /** The package's BUY side code, which the order listing compares against (equal to `Side.BUY`). */
  const BUY: int := 1

  /** The fixed table of `_decode_error`. */
  const ErrorMessages: map<int, string> := map[
    1 := "End of data",
    10 := "Order ID already exists",
    12 := "Order not found",
    14 := "Invalid order status",
    16 := "Instrument not found",
    17 := "Timeout",
    18 := "Interrupted",
    19 := "Custom error"
  ]

  const UNKNOWN_PREFIX: string := "Unknown error code: "

  /** `_decode_error`: the table's message, or "Unknown error code: " and the code in decimal. */
  function DecodeError(code: int): (msg: string)
    ensures msg != []
  {
    if code in ErrorMessages then ErrorMessages[code] else UNKNOWN_PREFIX + IntToString(code)
  }

  /** The eight codes of the table decode to their fixed messages. */
  lemma DecodeErrorTable()
    ensures DecodeError(1) == "End of data"
    ensures DecodeError(10) == "Order ID already exists"
    ensures DecodeError(12) == "Order not found"
    ensures DecodeError(14) == "Invalid order status"
    ensures DecodeError(16) == "Instrument not found"
    ensures DecodeError(17) == "Timeout"
    ensures DecodeError(18) == "Interrupted"
    ensures DecodeError(19) == "Custom error"
    ensures DecodeError(999) == "Unknown error code: 999"
  {
    assert IntToString(999) == "999";
  }

  /**
   * Any other code decodes to the fixed prefix followed by `str(code)`: a canonical decimal
   * text (no leading zero, no "-0") that parses back to the code. By `CanonicalIsRendering`
   * no other text has both properties.
   */
  lemma DecodeErrorUnknown(code: int)
    requires code !in ErrorMessages
    ensures var msg := DecodeError(code);
      && |msg| > |UNKNOWN_PREFIX| && msg[..|UNKNOWN_PREFIX|] == UNKNOWN_PREFIX
      && IsCanonicalText(msg[|UNKNOWN_PREFIX|..])
      && IsIntText(msg[|UNKNOWN_PREFIX|..]) && ParseInt(msg[|UNKNOWN_PREFIX|..]) == code
  {
    var msg := DecodeError(code);
    assert msg[|UNKNOWN_PREFIX|..] == IntToString(code);
    IntRoundTrip(code);
  }

  /** Distinct codes never decode to the same message, so the message identifies the code. */
  lemma DecodeErrorInjective(a: int, b: int)
    requires DecodeError(a) == DecodeError(b)
    ensures a == b
  {
    var n := |UNKNOWN_PREFIX|;
    if a !in ErrorMessages && b !in ErrorMessages {
      assert DecodeError(a)[n..] == IntToString(a);
      assert DecodeError(b)[n..] == IntToString(b);
      IntToStringInjective(a, b);
    } else if a in ErrorMessages && b !in ErrorMessages {
      MessageInitials(a, b);
    } else if a !in ErrorMessages && b in ErrorMessages {
      MessageInitials(b, a);
    }
  }

  /** A table message never starts like an unknown-code message. */
  lemma MessageInitials(known: int, unknown: int)
    requires known in ErrorMessages && unknown !in ErrorMessages
    ensures DecodeError(unknown)[0] == 'U' != DecodeError(known)[0]
  {
  }

  /**
   * The response the gateway builds from a Bot status code: `success` for code 0, else
   * an error carrying the decoded message; the order id and asset are echoed.
   */
  function ResponseFor(orderId: int, assetNo: int, code: int, success: OrderStatus): (r: OrderResponse)
    ensures r.orderId == orderId && r.assetNo == assetNo
    ensures r.filledQty == 0.0 && r.avgPrice == 0.0 && r.timestamp == None
    ensures r.status == Error <==> code != 0 || success == Error
    ensures code == 0 ==> r.status == success && r.error == None
    ensures code != 0 ==> r.error.Some? && r.error.value == DecodeError(code) != []
  {
    if code == 0 then OrderResponse(orderId, success, 0.0, 0.0, None, assetNo, None)
    else OrderResponse(orderId, Error, 0.0, 0.0, None, assetNo, Some(DecodeError(code)))
  }

  /** The per-order dict that `get_orders` builds. */
  datatype OrderInfo = OrderInfo(orderId: int, side: string, price: real, qty: real, leavesQty: real, status: string)

  function Info(o: StubOrder): (r: OrderInfo)
    ensures r.orderId == o.orderId && r.price == o.price && r.qty == o.qty
    ensures r.leavesQty == o.leavesQty && r.status == o.status
    ensures r.side == "buy" <==> o.side == BUY
    ensures r.side == "buy" || r.side == "sell"
  {
    OrderInfo(o.orderId, if o.side == BUY then "buy" else "sell", o.price, o.qty, o.leavesQty, o.status)
  }

  /** What the Bot's `feed_latency` and `order_latency` answer for asset `k`. */
  function StubAnswer(bot: StubConnectorBot, k: nat): AssetLatency
    reads bot
  {
    var f := bot.FeedLatency(k);
    var o := bot.OrderLatency(k);
    AssetLatency(Some(FeedSample(f.0, f.1)), Some(OrderSample(o.0, o.1, o.2)))
  }

  /** The answers of the Bot's two latency accessors for its first `n` assets, in asset order. */
  function StubSamples(bot: StubConnectorBot, n: nat): (s: seq<AssetLatency>)
    reads bot
    ensures |s| == n
    ensures forall k :: 0 <= k < n ==> s[k] == StubAnswer(bot, k)
  {
    if n == 0 then [] else StubSamples(bot, n - 1) + [StubAnswer(bot, n - 1)]
  }

  /**
   * A health pass over what the stub's accessors answer finds the connection up, with
   * its fixed latencies, both stamped with the Bot's clock.
   */
  lemma StubHealthConnected(bot: StubConnectorBot)
    requires bot.numAssets > 0
    ensures var h := HealthPass(StubSamples(bot, bot.numAssets));
      && h.connected
      && h.feedLatencyNs == Some(FEED_LATENCY_NS) && h.lastFeedTime == Some(bot.currentNs)
      && h.orderLatencyNs == Some(2 * ORDER_RTT_NS) && h.lastOrderTime == Some(bot.currentNs)
  {
    var s := StubSamples(bot, bot.numAssets);
    assert LastFeedReporter(s) == Some(bot.numAssets - 1);
    assert LastOrderReporter(s) == Some(bot.numAssets - 1);
    FeedFromLastReporter(s);
    OrderFromLastReporter(s);
  }

  /** How many polls the feed worker makes before the stub reports end of data, counting that one. */
  function PollsToEnd(closed: bool, feedCount: nat): (p: nat)
    ensures p >= 1
    ensures !closed && feedCount == 0 ==> p == MAX_FEEDS + 1
  {
    if closed || feedCount >= MAX_FEEDS then 1 else MAX_FEEDS + 1 - feedCount
  }

  /** What the feed worker reads and writes: the client's three queues and the Bot's feed state. */
  datatype FeedState = FeedState(queues: Channels, closed: bool, feedCount: nat,
                                 buffer: seq<RawEvent>, depth: MarketDepth, now: int)

  /** The code `wait_next_feed` answers a poll from state `s` with: end of data, market feed, or timeout. */
  function PollCode(s: FeedState, draw: FeedDraw): (code: int)
    ensures code == 0 || code == 1 || code == 2
    ensures code == 1 <==> s.closed || s.feedCount >= MAX_FEEDS
    ensures code == 0 ==> s.buffer == []
  {
    if s.closed || s.feedCount >= MAX_FEEDS then 1
    else if s.buffer + NewEvents(draw, s.now) != [] || (s.feedCount + 1) % 5 == 0 then 2
    else 0
  }

  /**
   * One iteration of `_feed_worker`: the Bot's poll (counting it unless closed, generating,
   * moving the depth and the clock), then on code 2 the demultiplexing pass over the
   * buffer, which empties it.
   */
  function Poll(m: EventMasks, s: FeedState, draw: FeedDraw): (r: FeedState)
    ensures r.queues.SameCapacities(s.queues) && (s.queues.Valid() ==> r.queues.Valid())
    ensures PollCode(s, draw) != 1 ==> r.buffer == []
    ensures PollCode(s, draw) != 2 ==> r.queues == s.queues
  {
    if s.closed then s
    else if s.feedCount >= MAX_FEEDS then s.(feedCount := s.feedCount + 1)
    else
      var buffer := s.buffer + NewEvents(draw, s.now);
      var depth := NextDepth(s.depth, draw);
      var polled := s.(feedCount := s.feedCount + 1, buffer := buffer, depth := depth, now := s.now + draw.advanceNs);
      if PollCode(s, draw) == 2 then polled.(queues := DemuxEvents(m, depth, 0, s.queues, buffer), buffer := [])
      else polled
  }

  /** The feed worker's loop over successive polls, one draw each, in order. */
  function Polls(m: EventMasks, s: FeedState, draws: seq<FeedDraw>): (r: FeedState)
    ensures r.queues.SameCapacities(s.queues) && (s.queues.Valid() ==> r.queues.Valid())
  {
    if draws == [] then s else Poll(m, Polls(m, s, draws[..|draws| - 1]), draws[|draws| - 1])
  }

  /** One more poll extends the run by one step. */
  lemma PollsStep(m: EventMasks, s: FeedState, draws: seq<FeedDraw>, k: nat)
    requires k < |draws|
    ensures Polls(m, s, draws[..k + 1]) == Poll(m, Polls(m, s, draws[..k]), draws[k])
  {
    assert draws[..k + 1][..k] == draws[..k];
  }

  /** Each queue is only ever appended to by a poll: what it held stays, at the front. */
  predicate Extends(before: Channels, after: Channels) {
    && before.trades.items <= after.trades.items
    && before.books.items <= after.books.items
    && before.snapshots.items <= after.snapshots.items
  }

  /** A poll never removes or reorders what the queues hold; on code 2 they gain the pass's admitted values. */
  lemma PollOnlyAppends(m: EventMasks, s: FeedState, draw: FeedDraw)
    requires s.queues.Valid()
    ensures Extends(s.queues, Poll(m, s, draw).queues)
  {
    if PollCode(s, draw) == 2 {
      DemuxChannels(m, NextDepth(s.depth, draw), 0, s.queues, s.buffer + NewEvents(draw, s.now));
    }
  }

  /** Over any run of the feed worker the queues only grow at the back: nothing the worker put there is lost. */
  lemma {:induction false} PollsOnlyAppend(m: EventMasks, s: FeedState, draws: seq<FeedDraw>)
    requires s.queues.Valid()
    ensures Extends(s.queues, Polls(m, s, draws).queues)
  {
    if draws != [] {
      var before := Polls(m, s, draws[..|draws| - 1]);
      PollsOnlyAppend(m, s, draws[..|draws| - 1]);
      PollOnlyAppends(m, before, draws[|draws| - 1]);
    }
  }

  /** Once the Bot is closed, polling changes nothing: every poll answers end of data. */
  lemma {:induction false} PollsWhenClosed(m: EventMasks, s: FeedState, draws: seq<FeedDraw>)
    requires s.closed
    ensures Polls(m, s, draws) == s
  {
    if draws != [] {
      PollsWhenClosed(m, s, draws[..|draws| - 1]);
    }
  }

  /** An open Bot counts every poll, the ones past the end of data included. */
  lemma {:induction false} PollsCount(m: EventMasks, s: FeedState, draws: seq<FeedDraw>)
    requires !s.closed
    ensures Polls(m, s, draws).feedCount == s.feedCount + |draws| && !Polls(m, s, draws).closed
  {
    if draws != [] {
      PollsCount(m, s, draws[..|draws| - 1]);
    }
  }

  class LiveClient {
    const bot: StubConnectorBot
    /** The package-level event flags the demultiplexer tests against. */
    const masks: EventMasks
    const feedTimeoutNs: int
    var tradeQueue: Fifo<Trade>
    var bookQueue: Fifo<BookUpdate>
    var snapshotQueue: Fifo<DepthSnapshot>
    var running: bool
    /** `_stop_event`: set by `stop`, cleared by `start`; the workers loop while it is clear. */
    var stopRequested: bool
    var health: ConnectionHealth
    var nextOrderId: int
    /** Every id the counter has handed out so far. */
    ghost var issued: set<int>

    /** The three queues, as the channels the demultiplexer fills. */
    function Queues(): Channels
      reads this
    {
      Channels(tradeQueue, bookQueue, snapshotQueue)
    }

    /** The queues together with the Bot's feed state: what the feed worker works on. */
    function State(): FeedState
      reads this, bot
    {
      FeedState(Queues(), bot.closed, bot.feedCount, bot.lastTrades, bot.depth, bot.currentNs)
    }

    /**
     * The client never runs with a stop request pending, its queues keep their capacities,
     * and the counter has handed out exactly the ids below it.
     */
    ghost predicate Valid()
      reads this, bot
    {
      && bot.Valid()
      && Queues().Valid()
      && (running ==> !stopRequested)
      && nextOrderId >= 1
      && (forall k :: k in issued <==> 1 <= k < nextOrderId)
    }

    constructor (bot: StubConnectorBot, masks: EventMasks, tradeQueueSize: int, bookQueueSize: int,
                 snapshotQueueSize: int, feedTimeoutNs: int)
      requires bot.Valid()
      ensures Valid()
      ensures this.bot == bot && this.masks == masks && this.feedTimeoutNs == feedTimeoutNs
      ensures tradeQueue == EmptyFifo(tradeQueueSize) && bookQueue == EmptyFifo(bookQueueSize)
      ensures snapshotQueue == EmptyFifo(snapshotQueueSize)
      ensures !running && !stopRequested && health == Disconnected && nextOrderId == 1
    {
      this.bot := bot;
      this.masks := masks;
      this.feedTimeoutNs := feedTimeoutNs;
      tradeQueue := EmptyFifo(tradeQueueSize);
      bookQueue := EmptyFifo(bookQueueSize);
      snapshotQueue := EmptyFifo(snapshotQueueSize);
      running := false;
      stopRequested := false;
      health := Disconnected;
      nextOrderId := 1;
      issued := {};
    }

    /** `start`: "Client already running" when running; otherwise clear the stop request and run. */
    method Start() returns (err: Option<string>)
      requires Valid()
      modifies this`running, this`stopRequested
      ensures Valid() && running && !stopRequested
      ensures old(running) <==> err == Some("Client already running")
      ensures !old(running) ==> err == None
    {
      if running {
        return Some("Client already running");
      }
      stopRequested := false;
      running := true;
      return None;
    }

    /** `stop`: nothing when not running; otherwise request the workers to stop and stop running. */
    method Stop()
      requires Valid()
      modifies this`running, this`stopRequested
      ensures Valid() && !running
      ensures old(running) ==> stopRequested
      ensures !old(running) ==> stopRequested == old(stopRequested)
    {
      if !running {
        return;
      }
      stopRequested := true;
      running := false;
    }

    /** `close`: stop, then close the Bot (whose code 0 needs no logging). */
    method Close()
      requires Valid()
      modifies this`running, this`stopRequested, bot`closed
      ensures Valid() && !running && bot.closed
      ensures old(running) ==> stopRequested
      ensures !old(running) ==> stopRequested == old(stopRequested)
    {
      Stop();
      var result := bot.Close();
    }

    method GetTradeNowait() returns (t: Option<Trade>)
      requires Valid()
      modifies this`tradeQueue
      ensures Valid() && tradeQueue.maxsize == old(tradeQueue.maxsize)
      ensures t.None? <==> old(tradeQueue.items) == []
      ensures t.None? ==> tradeQueue == old(tradeQueue)
      ensures t.Some? ==> [t.value] + tradeQueue.items == old(tradeQueue.items)
    {
      var r := tradeQueue.GetNowait();
      tradeQueue := r.0;
      t := r.1;
    }

    method GetBookUpdateNowait() returns (u: Option<BookUpdate>)
      requires Valid()
      modifies this`bookQueue
      ensures Valid() && bookQueue.maxsize == old(bookQueue.maxsize)
      ensures u.None? <==> old(bookQueue.items) == []
      ensures u.None? ==> bookQueue == old(bookQueue)
      ensures u.Some? ==> [u.value] + bookQueue.items == old(bookQueue.items)
    {
      var r := bookQueue.GetNowait();
      bookQueue := r.0;
      u := r.1;
    }

    method GetSnapshotNowait() returns (s: Option<DepthSnapshot>)
      requires Valid()
      modifies this`snapshotQueue
      ensures Valid() && snapshotQueue.maxsize == old(snapshotQueue.maxsize)
      ensures s.None? <==> old(snapshotQueue.items) == []
      ensures s.None? ==> snapshotQueue == old(snapshotQueue)
      ensures s.Some? ==> [s.value] + snapshotQueue.items == old(snapshotQueue.items)
    {
      var r := snapshotQueue.GetNowait();
      snapshotQueue := r.0;
      s := r.1;
    }

    /** The `health` property: the snapshot the last health pass stored. */
    function CurrentHealth(): (h: ConnectionHealth)
      reads this
      ensures h == health
    {
      health
    }

    /** `_generate_order_id`: the counter's value, never handed out before; the counter moves on by one. */
    method GenerateOrderId() returns (id: int)
      requires Valid()
      modifies this`nextOrderId, this`issued
      ensures Valid()
      ensures id == old(nextOrderId) && nextOrderId == id + 1
      ensures id !in old(issued) && issued == old(issued) + {id}
      ensures forall k :: k in old(issued) ==> k < id
    {
      id := nextOrderId;
      nextOrderId := nextOrderId + 1;
      issued := issued + {id};
    }

    /**
     * `submit_order`: take a fresh id when none is given, send the order down the buy path
     * iff the side is BUY, and turn the Bot's code into a response.
     */
    method SubmitOrder(side: Side, price: real, qty: real, assetNo: int, orderId: Option<int>,
                       timeInForce: int, orderType: int, wait: bool, fill: bool) returns (resp: OrderResponse)
      requires Valid()
      modifies this`nextOrderId, this`issued, bot`orders, bot`position
      ensures Valid()
      ensures orderId.Some? ==> resp.orderId == orderId.value && nextOrderId == old(nextOrderId)
      ensures orderId.None? ==> resp.orderId == old(nextOrderId) && nextOrderId == old(nextOrderId) + 1
      ensures resp.assetNo == assetNo && resp.filledQty == 0.0 && resp.timestamp == None
      ensures resp.orderId in old(Ids(bot.orders)) ==>
        && resp.status == Error && resp.error == Some("Order ID already exists")
        && bot.orders == old(bot.orders) && bot.position == old(bot.position)
      ensures resp.orderId !in old(Ids(bot.orders)) ==>
        && resp.status == Submitted && resp.error == None
        && bot.orders == old(bot.orders) + [Placed(resp.orderId, side.Code(), price, qty, fill)]
        && bot.position == old(bot.position) + (if fill then side.Code() as real * qty else 0.0)
    {
      var id: int;
      if orderId.None? {
        id := GenerateOrderId();
      } else {
        id := orderId.value;
      }
      var result: int;
      if side == Buy {
        result := bot.SubmitBuyOrder(assetNo, id, price, qty, timeInForce, orderType, wait, fill);
      } else {
        result := bot.SubmitSellOrder(assetNo, id, price, qty, timeInForce, orderType, wait, fill);
      }
      resp := ResponseFor(id, assetNo, result, Submitted);
    }

    /** `cancel_order`: the order id is echoed; "Order not found" when the Bot does not hold it. */
    method CancelOrder(orderId: int, assetNo: int, wait: bool) returns (resp: OrderResponse)
      requires Valid()
      modifies bot`orders
      ensures Valid()
      ensures resp.orderId == orderId && resp.assetNo == assetNo
      ensures orderId in old(Ids(bot.orders)) ==>
        resp.status == Cancelled && resp.error == None && bot.orders == Without(old(bot.orders), orderId)
      ensures orderId !in old(Ids(bot.orders)) ==>
        resp.status == Error && resp.error == Some("Order not found") && bot.orders == old(bot.orders)
    {
      var result := bot.Cancel(assetNo, orderId, wait);
      resp := ResponseFor(orderId, assetNo, result, Cancelled);
    }

    /** `get_position`: the Bot's position, whatever the asset. */
    function GetPosition(assetNo: int): (p: real)
      reads this, bot
      ensures p == bot.position
    {
      bot.Position(assetNo)
    }

    /** `get_orders`: drain the Bot's order iterator into a dict keyed by order id. */
    method GetOrders(assetNo: int) returns (result: map<int, OrderInfo>)
      requires Valid()
      ensures result.Keys == Ids(bot.orders)
      ensures forall o :: o in bot.orders ==> o.orderId in result && result[o.orderId] == Info(o)
    {
      var dict := bot.Orders(assetNo);
      var values := dict.Values();
      result := map[];
      while true
        invariant values == dict && dict.Valid() && dict.cursor.Some? && dict.orders == bot.orders
        invariant result.Keys == Ids(dict.Yielded())
        invariant forall o :: o in dict.Yielded() ==> o.orderId in result && result[o.orderId] == Info(o)
        decreases |dict.orders| - dict.cursor.value
      {
        var order := values.Next();
        if order.None? {
          break;
        }
        result := result[order.value.orderId := Info(order.value)];
      }
      assert dict.Yielded() == bot.orders;
    }

    /**
     * `_process_market_feed`: for each asset, route every buffered event to its queue
     * (dropping it when the queue is full), then clear the Bot's buffer.
     */
    method ProcessMarketFeed()
      requires Valid()
      modifies this`tradeQueue, this`bookQueue, this`snapshotQueue, bot`lastTrades
      ensures Valid()
      ensures Queues() == DemuxEvents(masks, bot.depth, 0, old(Queues()), old(bot.lastTrades))
      ensures bot.lastTrades == []
    {
      ghost var events := bot.lastTrades;
      ghost var start := Queues();
      for assetNo := 0 to bot.numAssets
        invariant Valid()
        invariant assetNo == 0 ==> Queues() == start && bot.lastTrades == events
        invariant assetNo > 0 ==> Queues() == DemuxEvents(masks, bot.depth, 0, start, events) && bot.lastTrades == []
      {
        var trades := bot.LastTrades(assetNo);
        for i := 0 to |trades|
          invariant Valid() && bot.lastTrades == trades
          invariant Queues() == DemuxEvents(masks, bot.depth, assetNo, start, trades[..i])
        {
          assert trades[..i + 1] == trades[..i] + [trades[i]];
          DispatchEvent(trades[i], assetNo);
        }
        assert trades[..|trades|] == events;
        bot.ClearLastTrades(assetNo);
      }
    }

    /**
     * One pass of `_process_market_feed`'s inner loop: the event goes where the flag chain
     * `Classify` sends it, built from the asset's current depth when it is a book update
     * or a snapshot, and is dropped if that queue is full.
     */
    method DispatchEvent(event: RawEvent, assetNo: int)
      requires Valid()
      modifies this`tradeQueue, this`bookQueue, this`snapshotQueue
      ensures Valid()
      ensures Queues() == Dispatch(masks, bot.depth, assetNo, old(Queues()), event)
    {
      match Classify(masks, event.ev)
      case ToTrades =>
        var trade := TradeFromEvent(event, assetNo);
        tradeQueue := tradeQueue.PutNowait(trade).0;
      case ToBooks =>
        var depth := bot.Depth(assetNo);
        var timestamp := event.exchTs;
        var update := BookUpdateFromDepth(depth, timestamp, assetNo);
        bookQueue := bookQueue.PutNowait(update).0;
      case ToSnapshots =>
        var depth := bot.Depth(assetNo);
        var timestamp := event.exchTs;
        var snapshot := SnapshotFromDepth(depth, timestamp, assetNo);
        snapshotQueue := snapshotQueue.PutNowait(snapshot).0;
      case Unrouted =>
    }

    /**
     * `_update_health`, given what the latency accessors answered for each asset: fold the
     * samples into a new snapshot, store it, and report whether the connection-lost
     * callback fires.
     */
    method UpdateHealth(samples: seq<AssetLatency>) returns (connectionLost: bool)
      requires Valid() && |samples| == bot.numAssets
      modifies this`health
      ensures Valid()
      ensures health == HealthPass(samples)
      ensures connectionLost == ConnectionLost(old(health), health)
    {
      var connected := false;
      var feedLatency: Option<int> := None;
      var orderLatency: Option<int> := None;
      var lastFeedTime: Option<int> := None;
      var lastOrderTime: Option<int> := None;
      for assetNo := 0 to bot.numAssets
        invariant ConnectionHealth(connected, feedLatency, orderLatency, lastFeedTime, lastOrderTime)
                  == HealthPass(samples[..assetNo])
      {
        assert samples[..assetNo + 1][..assetNo] == samples[..assetNo];
        var s := samples[assetNo];
        if s.feed.Some? {
          feedLatency := Some(s.feed.value.localTs - s.feed.value.exchTs);
          lastFeedTime := Some(s.feed.value.localTs);
          connected := true;
        }
        if s.order.Some? {
          orderLatency := Some(s.order.value.respTs - s.order.value.reqTs);
          lastOrderTime := Some(s.order.value.respTs);
        }
      }
      assert samples[..|samples|] == samples;
      var oldConnected := health.connected;
      health := ConnectionHealth(connected, feedLatency, orderLatency, lastFeedTime, lastOrderTime);
      connectionLost := oldConnected && !connected;
    }

    /**
     * Successive iterations of `_health_worker`'s loop, one per entry of `passes`: the
     * callback flags raised are exactly `Fired` over the passes' `connected` flags, starting
     * from the stored snapshot, so `Health.OneFirePerOutage` and
     * `Health.FiringsSeparatedByReconnect` are statements about this client.
     */
    method UpdateHealthRepeatedly(passes: seq<seq<AssetLatency>>) returns (lost: seq<bool>)
      requires Valid()
      requires forall i :: 0 <= i < |passes| ==> |passes[i]| == bot.numAssets
      modifies this`health
      ensures Valid()
      ensures lost == Fired(old(health.connected), seq(|passes|, i requires 0 <= i < |passes| => HealthPass(passes[i]).connected))
      ensures health == if passes == [] then old(health) else HealthPass(passes[|passes| - 1])
    {
      ghost var start := health.connected;
      ghost var conns := seq(|passes|, i requires 0 <= i < |passes| => HealthPass(passes[i]).connected);
      lost := [];
      for i := 0 to |passes|
        invariant Valid() && |lost| == i
        invariant health == if i == 0 then old(health) else HealthPass(passes[i - 1])
        invariant lost == Fired(start, conns)[..i]
      {
        FiredAt(start, conns, i);
        assert conns[i] == HealthPass(passes[i]).connected;
        assert health.connected == if i == 0 then start else conns[i - 1];
        var fired := UpdateHealth(passes[i]);
        assert Fired(start, conns)[..i + 1] == Fired(start, conns)[..i] + [fired];
        lost := lost + [fired];
      }
    }

    /**
     * One iteration of `_feed_worker`'s loop: poll the Bot, then continue on 0, end on 1,
     * demultiplex on 2; 3 (an order response) is handled by a no-op.
     */
    method FeedWorkerStep(draw: FeedDraw) returns (code: int, endOfData: bool)
      requires Valid() && draw.Valid()
      modifies this`tradeQueue, this`bookQueue, this`snapshotQueue
      modifies bot`feedCount, bot`lastTrades, bot`depth, bot`currentNs
      ensures Valid()
      ensures State() == Poll(masks, old(State()), draw) && code == PollCode(old(State()), draw)
      ensures endOfData <==> code == 1
      ensures code == 0 || code == 1 || code == 2
      ensures code == 1 <==> old(bot.closed) || old(bot.feedCount) >= MAX_FEEDS
      ensures !old(bot.closed) ==> bot.feedCount == old(bot.feedCount) + 1
      ensures old(bot.closed) ==> bot.feedCount == old(bot.feedCount)
      ensures code == 1 ==>
        && bot.lastTrades == old(bot.lastTrades) && bot.depth == old(bot.depth)
        && bot.currentNs == old(bot.currentNs)
      ensures code != 1 ==>
        && bot.depth == NextDepth(old(bot.depth), draw)
        && bot.currentNs == old(bot.currentNs) + draw.advanceNs
        && bot.lastTrades == []
        && (code == 2 <==> old(bot.lastTrades) + NewEvents(draw, old(bot.currentNs)) != [] || bot.feedCount % 5 == 0)
      ensures code == 2 ==>
        Queues() == DemuxEvents(masks, bot.depth, 0, old(Queues()), old(bot.lastTrades) + NewEvents(draw, old(bot.currentNs)))
      ensures code != 2 ==> Queues() == old(Queues())
    {
      code := bot.WaitNextFeed(false, feedTimeoutNs, draw);
      endOfData := false;
      if code == 0 {
      } else if code == 1 {
        endOfData := true;
      } else if code == 2 {
        ProcessMarketFeed();
      }
    }

    /**
     * `_feed_worker`, fed one draw per poll: it polls until the Bot reports end of data or
     * the draws run out. Against the stub the end comes at a fixed poll: on a fresh Bot,
     * the 1001st.
     */
    method RunFeedWorker(draws: seq<FeedDraw>) returns (polls: nat, ended: bool)
      requires Valid()
      requires forall k :: 0 <= k < |draws| ==> draws[k].Valid()
      modifies this`tradeQueue, this`bookQueue, this`snapshotQueue
      modifies bot`feedCount, bot`lastTrades, bot`depth, bot`currentNs
      ensures Valid()
      ensures polls <= |draws| && State() == Polls(masks, old(State()), draws[..polls])
      ensures old(stopRequested) ==> polls == 0 && !ended
      ensures !old(stopRequested) ==>
        var p := PollsToEnd(old(bot.closed), old(bot.feedCount));
        && (ended <==> |draws| >= p)
        && polls == (if ended then p else |draws|)
    {
      polls := 0;
      ended := false;
      if stopRequested {
        return;
      }
      ghost var p := PollsToEnd(bot.closed, bot.feedCount);
      ghost var count0 := bot.feedCount;
      ghost var start := State();
      while polls < |draws|
        invariant Valid() && !stopRequested
        invariant polls <= |draws| && polls < p
        invariant !bot.closed ==> bot.feedCount == count0 + polls
        invariant p == PollsToEnd(bot.closed, count0)
        invariant State() == Polls(masks, start, draws[..polls])
        decreases |draws| - polls
      {
        PollsStep(masks, start, draws, polls);
        var code, endOfData := FeedWorkerStep(draws[polls]);
        polls := polls + 1;
        if endOfData {
          ended := true;
          break;
        }
      }
    }
  }

  /** On a fresh client, three successive ids are 1, 2 and 3. */
  method FreshClientIds(bot: StubConnectorBot, masks: EventMasks) returns (a: int, b: int, c: int)
    requires bot.Valid()
    ensures a == 1 && b == 2 && c == 3
  {
    var client := new LiveClient(bot, masks, DEFAULT_TRADE_QUEUE_SIZE, DEFAULT_BOOK_QUEUE_SIZE,
                                 DEFAULT_SNAPSHOT_QUEUE_SIZE, DEFAULT_FEED_TIMEOUT_NS);
    a := client.GenerateOrderId();
    b := client.GenerateOrderId();
    c := client.GenerateOrderId();
  }

  /** Against a fresh stub: an order is accepted, and the same id again is rejected as a duplicate. */
  method DuplicateOrderRejected(masks: EventMasks) returns (first: OrderResponse, second: OrderResponse)
    ensures first.status == Submitted && first.orderId == 42 && first.error == None
    ensures second.status == Error && second.orderId == 42 && second.error == Some("Order ID already exists")
  {
    var bot := new StubConnectorBot(0);
    var client := new LiveClient(bot, masks, DEFAULT_TRADE_QUEUE_SIZE, DEFAULT_BOOK_QUEUE_SIZE,
                                 DEFAULT_SNAPSHOT_QUEUE_SIZE, DEFAULT_FEED_TIMEOUT_NS);
    first := client.SubmitOrder(Buy, 50000.0, 0.1, 0, Some(42), 0, 0, false, false);
    second := client.SubmitOrder(Buy, 50000.0, 0.1, 0, Some(42), 0, 0, false, false);
  }

  /** Against a fresh stub: cancelling an id never submitted reports it not found. */
  method CancelUnknownOrder(masks: EventMasks) returns (cancel: OrderResponse)
    ensures cancel.status == Error && cancel.orderId == 99999 && cancel.error == Some("Order not found")
  {
    var bot := new StubConnectorBot(0);
    var client := new LiveClient(bot, masks, DEFAULT_TRADE_QUEUE_SIZE, DEFAULT_BOOK_QUEUE_SIZE,
                                 DEFAULT_SNAPSHOT_QUEUE_SIZE, DEFAULT_FEED_TIMEOUT_NS);
    cancel := client.CancelOrder(99999, 0, false);
  }
}
