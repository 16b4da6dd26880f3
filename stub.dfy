/**
 * `StubConnectorBot` (hftbacktest/live/stub.py): the synthetic Bot the live client is
 * exercised against. It keeps an order table, a position, a depth, a buffer of raw feed
 * events, a poll counter and a simulated clock.
 *
 * Its pseudo-random choices (whether a poll generates a trade and a depth update, their
 * values, how far the clock advances, whether an order fills at once) are parameters
 * here, each restricted to the range the source draws it from.
 */
module Stub {
  import opened Models

  /** The stub ends the event stream once its poll counter passes this. */
  const MAX_FEEDS: nat := 1000
  /** The simulated feed latency: 100 microseconds. */
  const FEED_LATENCY_NS: int := 100_000
  /** The simulated order round trip: 1 millisecond per leg. */
  const ORDER_RTT_NS: int := 1_000_000
  /** `_spread_base`: the factor the drawn spread is scaled by. */
  const SPREAD_BASE: real := 1.0

  /** `StubOrder`: side 1 (buy) or -1 (sell); status "accepted" or "filled". */
  datatype StubOrder = StubOrder(orderId: int, side: int, price: real, qty: real, leavesQty: real, status: string)

  predicate WellFormedOrder(o: StubOrder) {
    && (o.side == 1 || o.side == -1)
    && ((o.status == "accepted" && o.leavesQty == o.qty) || (o.status == "filled" && o.leavesQty == 0.0))
  }

  /** The order a successful submit stores: open for its whole quantity, or filled at once. */
  function Placed(orderId: int, side: int, price: real, qty: real, fill: bool): StubOrder {
    if fill then StubOrder(orderId, side, price, qty, 0.0, "filled")
    else StubOrder(orderId, side, price, qty, qty, "accepted")
  }

  /** The keys of the order dict, whose entries are kept in insertion order. */
  function Ids(orders: seq<StubOrder>): set<int> {
    set o | o in orders :: o.orderId
  }

  predicate UniqueIds(orders: seq<StubOrder>) {
    forall i, j :: 0 <= i < j < |orders| ==> orders[i].orderId != orders[j].orderId
  }

  /** `del orders[orderId]`: every other entry stays, in its order. */
  function Without(orders: seq<StubOrder>, orderId: int): (r: seq<StubOrder>)
    ensures forall o :: o in r <==> o in orders && o.orderId != orderId
    ensures Ids(r) == Ids(orders) - {orderId}
    ensures UniqueIds(orders) ==> UniqueIds(r)
    ensures orderId !in Ids(orders) ==> r == orders
    ensures UniqueIds(orders) && orderId in Ids(orders) ==> |r| == |orders| - 1
  {
    if orders == [] then []
    else
      var init := orders[..|orders| - 1];
      var last := orders[|orders| - 1];
      assert orders == init + [last];
      SnocIds(init, last);
      SnocUnique(init, last);
      var rest := Without(init, orderId);
      var r := if last.orderId == orderId then rest else rest + [last];
      assert forall o :: o in r <==> o in orders && o.orderId != orderId;
      IdsOfMembers(orders, r, orderId);
      SnocUnique(rest, last);
      r
  }

  /** A table holding exactly the entries of another whose id differs from `orderId` has its keys minus `orderId`. */
  lemma IdsOfMembers(orders: seq<StubOrder>, r: seq<StubOrder>, orderId: int)
    requires forall o :: o in r <==> o in orders && o.orderId != orderId
    ensures Ids(r) == Ids(orders) - {orderId}
  {
  }

  /** Appending an entry adds its id to the keys. */
  lemma SnocIds(init: seq<StubOrder>, last: StubOrder)
    ensures Ids(init + [last]) == Ids(init) + {last.orderId}
  {
    assert forall o :: o in init + [last] <==> o in init || o == last;
  }

  /** Appending keeps the ids distinct iff they were and the new id is not among them. */
  lemma SnocUnique(init: seq<StubOrder>, last: StubOrder)
    ensures UniqueIds(init + [last]) <==> UniqueIds(init) && last.orderId !in Ids(init)
  {
    var s := init + [last];
    assert forall i :: 0 <= i < |init| ==> s[i] == init[i];
    if last.orderId in Ids(init) {
      var o :| o in init && o.orderId == last.orderId;
      var i :| 0 <= i < |init| && init[i] == o;
      assert s[i].orderId == s[|init|].orderId;
    }
  }


  /** The values of one trade that `_generate_synthetic_trade` draws. */
  datatype TradeDraw = TradeDraw(px: real, qty: real, isBuy: bool)

  /** The values of one depth move that `_update_synthetic_depth` draws: the new mid, the spread, both quantities. */
  datatype DepthDraw = DepthDraw(mid: real, spread: real, bidQty: real, askQty: real)

  /** Everything one `wait_next_feed` draws: an optional trade, an optional depth move, the clock advance. */
  datatype FeedDraw = FeedDraw(trade: Option<TradeDraw>, depth: Option<DepthDraw>, advanceNs: int) {
    /**
     * The ranges of `randint(1_000_000, 10_000_000)` and of the `uniform` draws; the spread
     * is `_spread_base * uniform(0.5, 1.5)`.
     */
    predicate Valid() {
      && 1_000_000 <= advanceNs <= 10_000_000
      && (trade.Some? ==> 0.1 <= trade.value.qty <= 2.0)
      && (depth.Some? ==> && SPREAD_BASE * 0.5 <= depth.value.spread <= SPREAD_BASE * 1.5
                          && 0.5 <= depth.value.bidQty <= 5.0 && 0.5 <= depth.value.askQty <= 5.0)
    }
  }

  /** A synthetic trade event: flag 0x01 for a buy, 0x02 for a sell, stamped with the current clock. */
  function SyntheticTrade(d: TradeDraw, now: int): RawEvent {
    RawEvent(if d.isBuy then 0x01 else 0x02, now, d.px, d.qty)
  }

  /** The snapshot event a depth move appends: flag 0x04, stamped with the current clock, no price. */
  function SyntheticSnapshot(now: int): RawEvent {
    RawEvent(0x04, now, 0.0, 0.0)
  }

  /** The events one generating poll appends: the trade (if drawn), then the snapshot event (if drawn). */
  function NewEvents(draw: FeedDraw, now: int): seq<RawEvent> {
    (if draw.trade.Some? then [SyntheticTrade(draw.trade.value, now)] else [])
    + (if draw.depth.Some? then [SyntheticSnapshot(now)] else [])
  }

  /** The depth after a poll: best bid and ask half a spread either side of the new mid. */
  function NextDepth(depth: MarketDepth, draw: FeedDraw): MarketDepth {
    if draw.depth.None? then depth
    else
      var d := draw.depth.value;
      depth.(bestBid := d.mid - d.spread / 2.0, bestBidQty := d.bidQty,
             bestAsk := d.mid + d.spread / 2.0, bestAskQty := d.askQty)
  }

  /** A buffered event: stamped before the current clock, a stub flag, and a positive quantity for trades. */
  predicate WellFormedEvent(e: RawEvent, now: int) {
    && e.exchTs < now
    && (e.ev == 0x01 || e.ev == 0x02 || e.ev == 0x04)
    && (e.ev != 0x04 ==> e.qty > 0.0)
  }

  /** `StubDepth()`: its defaults, with an empty level listing. */
  const InitialDepth := MarketDepth(50000.0, 1.0, 50001.0, 1.0, 0.1, [])

  /** `StubOrderDict`: `values()` starts an iteration over the order table, `next()` steps it. */
  class StubOrderDict {
    const orders: seq<StubOrder>
    /** `_iterator`: None until `values()` is called, then the position of the next entry. */
    var cursor: Option<nat>

    ghost predicate Valid()
      reads this
    {
      cursor.Some? ==> cursor.value <= |orders|
    }

    constructor (orders: seq<StubOrder>)
      ensures Valid() && this.orders == orders && cursor == None
    {
      this.orders := orders;
      cursor := None;
    }

    /** The entries `next()` has returned so far. */
    ghost function Yielded(): seq<StubOrder>
      reads this
      requires Valid()
    {
      if cursor.None? then [] else orders[..cursor.value]
    }

    method Values() returns (view: StubOrderDict)
      requires Valid()
      modifies this`cursor
      ensures Valid() && view == this && cursor == Some(0) && Yielded() == []
    {
      cursor := Some(0);
      view := this;
    }

    /** The next entry, or None once every entry has been returned (and from then on). */
    method Next() returns (o: Option<StubOrder>)
      requires Valid() && cursor.Some?
      modifies this`cursor
      ensures Valid() && cursor.Some?
      ensures old(cursor.value) < |orders| ==>
        o == Some(orders[old(cursor.value)]) && cursor == Some(old(cursor.value) + 1)
        && Yielded() == old(Yielded()) + [o.value]
      ensures old(cursor.value) == |orders| ==> o == None && cursor == old(cursor)
    {
      var i := cursor.value;
      if i < |orders| {
        o := Some(orders[i]);
        cursor := Some(i + 1);
        assert orders[..i + 1] == orders[..i] + [orders[i]];
      } else {
        o := None;
      }
    }
  }

  class StubConnectorBot {
    const numAssets: nat
    var currentNs: int
    var closed: bool
    var position: real
    /** `_orders`, a dict kept in insertion order: an association list with distinct ids. */
    var orders: seq<StubOrder>
    var depth: MarketDepth
    var lastTrades: seq<RawEvent>
    var feedCount: nat

    ghost predicate Valid()
      reads this
    {
      && numAssets == 1
      && UniqueIds(orders)
      && (forall o :: o in orders ==> WellFormedOrder(o))
      && depth.bestBid < depth.bestAsk
      && depth.snapshot == []
      && (forall k :: 0 <= k < |lastTrades| ==> WellFormedEvent(lastTrades[k], currentNs))
    }

    /** `StubConnectorBot()`, with the wall-clock reading it starts from given as `startNs`. */
    constructor (startNs: int)
      ensures Valid()
      ensures currentNs == startNs && !closed && position == 0.0 && orders == []
      ensures depth == InitialDepth && lastTrades == [] && feedCount == 0
    {
      numAssets := 1;
      currentNs := startNs;
      closed := false;
      position := 0.0;
      orders := [];
      depth := InitialDepth;
      lastTrades := [];
      feedCount := 0;
    }

    method Close() returns (code: int)
      modifies this`closed
      ensures closed && code == 0
    {
      closed := true;
      code := 0;
    }

    /**
     * `wait_next_feed`: 1 (end of data) once closed, without counting the poll, or once
     * the poll counter passes MAX_FEEDS; otherwise generate, advance the clock, and
     * report 2 (market feed) if the buffer holds events or every fifth poll, else 0.
     */
    method WaitNextFeed(includeOrderResp: bool, timeout: int, draw: FeedDraw) returns (code: int)
      requires Valid() && draw.Valid()
      modifies this`feedCount, this`lastTrades, this`depth, this`currentNs
      ensures Valid()
      ensures code == 1 <==> old(closed) || old(feedCount) >= MAX_FEEDS
      ensures old(closed) ==> feedCount == old(feedCount)
      ensures !old(closed) ==> feedCount == old(feedCount) + 1
      ensures code == 1 ==>
        lastTrades == old(lastTrades) && depth == old(depth) && currentNs == old(currentNs)
      ensures code != 1 ==>
        && lastTrades == old(lastTrades) + NewEvents(draw, old(currentNs))
        && depth == NextDepth(old(depth), draw)
        && currentNs == old(currentNs) + draw.advanceNs > old(currentNs)
        && (code == 2 <==> lastTrades != [] || feedCount % 5 == 0)
        && (code == 0 <==> lastTrades == [] && feedCount % 5 != 0)
    {
      if closed {
        return 1;
      }
      feedCount := feedCount + 1;
      if feedCount > MAX_FEEDS {
        return 1;
      }
      if draw.trade.Some? {
        GenerateSyntheticTrade(draw.trade.value);
      }
      if draw.depth.Some? {
        UpdateSyntheticDepth(draw.depth.value);
      }
      currentNs := currentNs + draw.advanceNs;
      if lastTrades != [] || feedCount % 5 == 0 {
        return 2;
      }
      return 0;
    }

    method GenerateSyntheticTrade(d: TradeDraw)
      modifies this`lastTrades
      ensures lastTrades == old(lastTrades) + [SyntheticTrade(d, currentNs)]
    {
      lastTrades := lastTrades + [SyntheticTrade(d, currentNs)];
    }

    method UpdateSyntheticDepth(d: DepthDraw)
      modifies this`depth, this`lastTrades
      ensures depth == old(depth).(bestBid := d.mid - d.spread / 2.0, bestBidQty := d.bidQty,
                                   bestAsk := d.mid + d.spread / 2.0, bestAskQty := d.askQty)
      ensures lastTrades == old(lastTrades) + [SyntheticSnapshot(currentNs)]
    {
      depth := depth.(bestBid := d.mid - d.spread / 2.0, bestBidQty := d.bidQty,
                      bestAsk := d.mid + d.spread / 2.0, bestAskQty := d.askQty);
      lastTrades := lastTrades + [SyntheticSnapshot(currentNs)];
    }

    /** `last_trades(asset)`: the one buffer, whatever the asset. */
    function LastTrades(assetNo: int): (r: seq<RawEvent>)
      reads this
      ensures r == lastTrades
      ensures Valid() ==> forall k :: 0 <= k < |r| ==> WellFormedEvent(r[k], currentNs)
    {
      lastTrades
    }

    method ClearLastTrades(assetNo: int)
      modifies this`lastTrades
      ensures lastTrades == []
    {
      lastTrades := [];
    }

    /** `depth(asset)`: the one depth, whatever the asset; its best bid is below its best ask. */
    function Depth(assetNo: int): (d: MarketDepth)
      reads this
      ensures d == depth
      ensures Valid() ==> d.bestBid < d.bestAsk
    {
      depth
    }

    /** `position(asset)`: the one position, whatever the asset. */
    function Position(assetNo: int): (p: real)
      reads this
      ensures p == position
    {
      position
    }

    /** `current_timestamp`: the simulated clock. */
    function CurrentTimestamp(): (t: int)
      reads this
      ensures t == currentNs
    {
      currentNs
    }

    /** `orders(asset)`: a fresh iterator object over the order table. */
    method Orders(assetNo: int) returns (d: StubOrderDict)
      ensures fresh(d) && d.Valid() && d.orders == orders && d.cursor == None
    {
      d := new StubOrderDict(orders);
    }

    /** `submit_buy_order`: 10 for a known id; else 0 and a new buy order, which may fill at once. */
    method SubmitBuyOrder(assetNo: int, orderId: int, price: real, qty: real, timeInForce: int,
                          orderType: int, wait: bool, fill: bool) returns (code: int)
      requires Valid()
      modifies this`orders, this`position
      ensures Valid()
      ensures orderId in old(Ids(orders)) ==> code == 10 && orders == old(orders) && position == old(position)
      ensures orderId !in old(Ids(orders)) ==>
        && code == 0
        && orders == old(orders) + [Placed(orderId, 1, price, qty, fill)]
        && position == old(position) + (if fill then qty else 0.0)
    {
      if orderId in Ids(orders) {
        return 10;
      }
      orders := orders + [StubOrder(orderId, 1, price, qty, qty, "accepted")];
      if fill {
        var last := |orders| - 1;
        orders := orders[last := orders[last].(leavesQty := 0.0, status := "filled")];
        position := position + qty;
      }
      return 0;
    }

    /** `submit_sell_order`: 10 for a known id; else 0 and a new sell order, which may fill at once. */
    method SubmitSellOrder(assetNo: int, orderId: int, price: real, qty: real, timeInForce: int,
                           orderType: int, wait: bool, fill: bool) returns (code: int)
      requires Valid()
      modifies this`orders, this`position
      ensures Valid()
      ensures orderId in old(Ids(orders)) ==> code == 10 && orders == old(orders) && position == old(position)
      ensures orderId !in old(Ids(orders)) ==>
        && code == 0
        && orders == old(orders) + [Placed(orderId, -1, price, qty, fill)]
        && position == old(position) - (if fill then qty else 0.0)
    {
      if orderId in Ids(orders) {
        return 10;
      }
      orders := orders + [StubOrder(orderId, -1, price, qty, qty, "accepted")];
      if fill {
        var last := |orders| - 1;
        orders := orders[last := orders[last].(leavesQty := 0.0, status := "filled")];
        position := position - qty;
      }
      return 0;
    }

    /** `cancel`: 12 for an unknown id; else 0 and that one entry removed. */
    method Cancel(assetNo: int, orderId: int, wait: bool) returns (code: int)
      requires Valid()
      modifies this`orders
      ensures Valid()
      ensures orderId !in old(Ids(orders)) ==> code == 12 && orders == old(orders)
      ensures orderId in old(Ids(orders)) ==> code == 0 && orders == Without(old(orders), orderId)
    {
      if orderId !in Ids(orders) {
        return 12;
      }
      orders := Without(orders, orderId);
      return 0;
    }

    /** `feed_latency`: (exchange time, local time), the local time being the clock. */
    function FeedLatency(assetNo: int): (r: (int, int))
      reads this
      ensures r.1 == currentNs && r.1 - r.0 == FEED_LATENCY_NS
      ensures r.0 < r.1
    {
      (currentNs - FEED_LATENCY_NS, currentNs)
    }

    /** `order_latency`: (request, exchange, response) times, one round-trip leg apart, ending at the clock. */
    function OrderLatency(assetNo: int): (r: (int, int, int))
      reads this
      ensures r.2 == currentNs && r.2 - r.1 == ORDER_RTT_NS && r.1 - r.0 == ORDER_RTT_NS
      ensures r.0 < r.1 < r.2
    {
      (currentNs - 2 * ORDER_RTT_NS, currentNs - ORDER_RTT_NS, currentNs)
    }
  }

  /**
   * Against a fresh stub: a buy order with id 1 is listed, with side 1; cancelling it
   * succeeds, after which the listing is empty.
   */
  method OrderLifecycle(startNs: int, fill: bool)
    returns (submitted: int, listed: Option<StubOrder>, cancelled: int, afterCancel: Option<StubOrder>)
    ensures submitted == 0 && cancelled == 0 && afterCancel == None
    ensures listed == Some(Placed(1, 1, 49999.0, 0.1, fill))
  {
    var bot := new StubConnectorBot(startNs);
    submitted := bot.SubmitBuyOrder(0, 1, 49999.0, 0.1, 0, 0, false, fill);
    var dict := bot.Orders(0);
    var values := dict.Values();
    listed := values.Next();
    cancelled := bot.Cancel(0, 1, false);
    dict := bot.Orders(0);
    values := dict.Values();
    afterCancel := values.Next();
  }
}
