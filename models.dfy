/**
 * The event and order value types of the live client (hftbacktest/live/models.py),
 * and the three constructors that build them from raw bot data:
 * Trade.from_event, BookUpdate.from_depth and DepthSnapshot.from_depth.
 *
 * Prices and quantities are only copied and compared, never computed, so they are `real`.
 */
module Models {

  /** Python's Optional: None, or a value. */
  datatype Option<T> = None | Some(value: T)

  /** `Side(IntEnum)`: BUY = 1, SELL = -1. */
  datatype Side = Buy | Sell {
    function Code(): int {
      match this
      case Buy => 1
      case Sell => -1
    }
  }

  /** `Side(code)`: the member with that value, if any. */
  function SideOf(code: int): (s: Option<Side>)
    ensures s.Some? <==> code == 1 || code == -1
    ensures s.Some? ==> s.value.Code() == code
  {
    if code == 1 then Some(Buy) else if code == -1 then Some(Sell) else None
  }

  lemma SideRoundTrip(s: Side)
    ensures SideOf(s.Code()) == Some(s)
    ensures s.Code() == 1 || s.Code() == -1
  {
  }

  /** `EventType(IntEnum)`: DEPTH = 1, TRADE = 2, DEPTH_CLEAR = 3, DEPTH_SNAPSHOT = 4, DEPTH_BBO = 5. */
  datatype EventType = DepthEvent | TradeEvent | DepthClearEvent | DepthSnapshotEvent | DepthBboEvent {
    function Code(): int {
      match this
      case DepthEvent => 1
      case TradeEvent => 2
      case DepthClearEvent => 3
      case DepthSnapshotEvent => 4
      case DepthBboEvent => 5
    }
  }

  /** `EventType(code)`: the member with that value, if any. */
  function EventTypeOf(code: int): (t: Option<EventType>)
    ensures t.Some? <==> 1 <= code <= 5
    ensures t.Some? ==> t.value.Code() == code
  {
    if code == 1 then Some(DepthEvent)
    else if code == 2 then Some(TradeEvent)
    else if code == 3 then Some(DepthClearEvent)
    else if code == 4 then Some(DepthSnapshotEvent)
    else if code == 5 then Some(DepthBboEvent)
    else None
  }

  lemma EventTypeRoundTrip(t: EventType)
    ensures EventTypeOf(t.Code()) == Some(t)
  {
  }

  /** The bit of an event's (or a level's) flags that marks the buy side. */
  const BUY_FLAG: bv64 := 0x01

  /** One raw feed event as the bot buffers it: its flags `ev`, `exch_ts`, `px` and `qty`. */
  datatype RawEvent = RawEvent(ev: bv64, exchTs: int, px: real, qty: real)

  /** One level of a depth object's `snapshot` listing: `px`, `qty` and the side flags `ev`. */
  datatype RawLevel = RawLevel(px: real, qty: real, ev: bv64)

  /** The attributes of the bot's depth object that the models read, plus its tick size. */
  datatype MarketDepth = MarketDepth(
    bestBid: real, bestBidQty: real, bestAsk: real, bestAskQty: real,
    tickSize: real, snapshot: seq<RawLevel>)

  datatype Trade = Trade(timestamp: int, price: real, qty: real, side: Side, assetNo: int)

  datatype BookLevel = BookLevel(price: real, qty: real)

  datatype BookUpdate = BookUpdate(
    timestamp: int, bidPrice: real, bidQty: real, askPrice: real, askQty: real, assetNo: int)

  datatype DepthSnapshot = DepthSnapshot(
    timestamp: int, bids: seq<BookLevel>, asks: seq<BookLevel>, assetNo: int)

  /** Ephemeral description of an order; time in force and order type are opaque codes. */
  datatype OrderRequest = OrderRequest(
    orderId: int, price: real, qty: real, side: Side, assetNo: int, timeInForce: int, orderType: int)

  datatype OrderStatus = Submitted | Cancelled | Error {
    function Name(): string {
      match this
      case Submitted => "submitted"
      case Cancelled => "cancelled"
      case Error => "error"
    }
  }

  datatype OrderResponse = OrderResponse(
    orderId: int, status: OrderStatus, filledQty: real, avgPrice: real,
    timestamp: Option<int>, assetNo: int, error: Option<string>)

  datatype ConnectionHealth = ConnectionHealth(
    connected: bool,
    feedLatencyNs: Option<int>, orderLatencyNs: Option<int>,
    lastFeedTime: Option<int>, lastOrderTime: Option<int>)

  /** `ConnectionHealth(connected=False)`: the value a client starts with. */
  const Disconnected := ConnectionHealth(false, None, None, None, None)

  predicate IsBuyFlagged(ev: bv64) {
    ev & BUY_FLAG != 0
  }

  /** `Trade.from_event`: the buy bit of the flags picks the side; the rest is copied. */
  function TradeFromEvent(event: RawEvent, assetNo: int): (t: Trade)
    ensures t.timestamp == event.exchTs && t.price == event.px && t.qty == event.qty
    ensures t.assetNo == assetNo
    ensures t.side == Buy <==> event.ev & 0x01 != 0
  {
    Trade(event.exchTs, event.px, event.qty, if IsBuyFlagged(event.ev) then Buy else Sell, assetNo)
  }

  /** `BookUpdate.from_depth`: the best bid and ask of the depth, stamped with the given time. */
  function BookUpdateFromDepth(depth: MarketDepth, timestamp: int, assetNo: int): (u: BookUpdate)
    ensures u.timestamp == timestamp && u.assetNo == assetNo
    ensures u.bidPrice == depth.bestBid && u.bidQty == depth.bestBidQty
    ensures u.askPrice == depth.bestAsk && u.askQty == depth.bestAskQty
  {
    BookUpdate(timestamp, depth.bestBid, depth.bestBidQty, depth.bestAsk, depth.bestAskQty, assetNo)
  }

  // ---------------------------------------------------------------------------
  // DepthSnapshot.from_depth: keep levels with qty > 0, split them by the buy bit,
  // sort bids by descending price and asks by ascending price.
  // ---------------------------------------------------------------------------

  function ToBookLevel(level: RawLevel): BookLevel {
    BookLevel(level.px, level.qty)
  }

  /** The levels with a positive quantity, in listing order. */
  function KeptLevels(levels: seq<RawLevel>): (r: seq<BookLevel>)
    ensures |r| <= |levels|
    ensures forall k :: 0 <= k < |r| ==> r[k].qty > 0.0
  {
    if levels == [] then []
    else
      var init := levels[..|levels| - 1];
      var last := levels[|levels| - 1];
      if last.qty > 0.0 then KeptLevels(init) + [ToBookLevel(last)] else KeptLevels(init)
  }

  /**
   * The levels the loop of `from_depth` appends to `bids` (when `bids` holds) or to `asks`,
   * in listing order: a kept level goes to bids iff its buy bit is set.
   */
  function SideLevels(levels: seq<RawLevel>, bids: bool): (r: seq<BookLevel>)
    ensures |r| <= |levels|
    ensures forall k :: 0 <= k < |r| ==> r[k].qty > 0.0
  {
    if levels == [] then []
    else
      var init := levels[..|levels| - 1];
      var last := levels[|levels| - 1];
      if last.qty > 0.0 && IsBuyFlagged(last.ev) == bids then SideLevels(init, bids) + [ToBookLevel(last)]
      else SideLevels(init, bids)
  }

  /** A level in the bid (or ask) list comes from exactly such a listed level, and every such level is there. */
  lemma {:induction false} SideLevelsMembership(levels: seq<RawLevel>, bids: bool, x: BookLevel)
    ensures x in SideLevels(levels, bids) <==>
      exists k :: 0 <= k < |levels| && levels[k].qty > 0.0 && IsBuyFlagged(levels[k].ev) == bids
                  && ToBookLevel(levels[k]) == x
  {
    if levels != [] {
      var init := levels[..|levels| - 1];
      SideLevelsMembership(init, bids, x);
      assert forall k :: 0 <= k < |init| ==> init[k] == levels[k];
    }
  }

  /** The bid list and the ask list together hold exactly the kept levels: a partition. */
  lemma {:induction false} SidesPartitionKept(levels: seq<RawLevel>)
    ensures multiset(SideLevels(levels, true)) + multiset(SideLevels(levels, false))
            == multiset(KeptLevels(levels))
    ensures |SideLevels(levels, true)| + |SideLevels(levels, false)| == |KeptLevels(levels)|
  {
    if levels != [] {
      SidesPartitionKept(levels[..|levels| - 1]);
    }
  }

  predicate Precedes(a: BookLevel, b: BookLevel, descending: bool) {
    if descending then a.price >= b.price else a.price <= b.price
  }

  predicate SortedBy(s: seq<BookLevel>, descending: bool) {
    forall i, j :: 0 <= i < j < |s| ==> Precedes(s[i], s[j], descending)
  }

  /** Insert `x` after every element it does not strictly precede, so equal prices keep their order. */
  function InsertLevel(x: BookLevel, s: seq<BookLevel>, descending: bool): (r: seq<BookLevel>)
    ensures multiset(r) == multiset(s) + multiset{x}
    ensures |r| == |s| + 1
  {
    if s == [] then [x]
    else if Precedes(s[0], x, descending) then
      assert s == [s[0]] + s[1..];
      [s[0]] + InsertLevel(x, s[1..], descending)
    else
      [x] + s
  }

  /** `a` comes no later than any element of `s`. */
  predicate PrecedesAll(a: BookLevel, s: seq<BookLevel>, descending: bool) {
    forall j :: 0 <= j < |s| ==> Precedes(a, s[j], descending)
  }

  lemma PrecedesAllPermutation(a: BookLevel, s: seq<BookLevel>, t: seq<BookLevel>, descending: bool)
    requires PrecedesAll(a, s, descending)
    requires multiset(t) <= multiset(s)
    ensures PrecedesAll(a, t, descending)
  {
    forall j | 0 <= j < |t| ensures Precedes(a, t[j], descending) {
      assert t[j] in multiset(s);
      var k :| 0 <= k < |s| && s[k] == t[j];
    }
  }

  lemma {:induction false} InsertLevelSorted(x: BookLevel, s: seq<BookLevel>, descending: bool)
    requires SortedBy(s, descending)
    ensures SortedBy(InsertLevel(x, s, descending), descending)
  {
    if s != [] {
      var tail := s[1..];
      assert SortedBy(tail, descending);
      if Precedes(s[0], x, descending) {
        var rest := InsertLevel(x, tail, descending);
        InsertLevelSorted(x, tail, descending);
        assert PrecedesAll(s[0], tail + [x], descending);
        assert multiset(tail + [x]) == multiset(tail) + multiset{x};
        PrecedesAllPermutation(s[0], tail + [x], rest, descending);
        assert InsertLevel(x, s, descending) == [s[0]] + rest;
      } else {
        assert PrecedesAll(x, s, descending);
      }
    }
  }

  /** `list.sort(key=price, reverse=descending)` as an insertion sort taking the elements in order. */
  function SortLevels(s: seq<BookLevel>, descending: bool): (r: seq<BookLevel>)
    ensures SortedBy(r, descending)
    ensures multiset(r) == multiset(s)
    ensures |r| == |s|
  {
    if s == [] then []
    else
      var init := s[..|s| - 1];
      assert s == init + [s[|s| - 1]];
      InsertLevelSorted(s[|s| - 1], SortLevels(init, descending), descending);
      InsertLevel(s[|s| - 1], SortLevels(init, descending), descending)
  }

  /** Every level kept in a snapshot has a positive quantity. */
  predicate AllPositive(s: seq<BookLevel>) {
    forall i :: 0 <= i < |s| ==> s[i].qty > 0.0
  }

  lemma PermutationKeepsPositive(a: seq<BookLevel>, b: seq<BookLevel>)
    requires multiset(a) == multiset(b)
    requires AllPositive(b)
    ensures AllPositive(a)
  {
    forall i | 0 <= i < |a| ensures a[i].qty > 0.0 {
      assert a[i] in multiset(b);
      var j :| 0 <= j < |b| && b[j] == a[i];
    }
  }

  /** `DepthSnapshot.from_depth`. */
  function SnapshotFromDepth(depth: MarketDepth, timestamp: int, assetNo: int): (snap: DepthSnapshot)
    ensures snap.timestamp == timestamp && snap.assetNo == assetNo
    ensures SortedBy(snap.bids, true) && SortedBy(snap.asks, false)
    ensures multiset(snap.bids) == multiset(SideLevels(depth.snapshot, true))
    ensures multiset(snap.asks) == multiset(SideLevels(depth.snapshot, false))
    ensures AllPositive(snap.bids) && AllPositive(snap.asks)
    ensures multiset(snap.bids + snap.asks) == multiset(KeptLevels(depth.snapshot))
  {
    var bids := SortLevels(SideLevels(depth.snapshot, true), true);
    var asks := SortLevels(SideLevels(depth.snapshot, false), false);
    PermutationKeepsPositive(bids, SideLevels(depth.snapshot, true));
    PermutationKeepsPositive(asks, SideLevels(depth.snapshot, false));
    SidesPartitionKept(depth.snapshot);
    DepthSnapshot(timestamp, bids, asks, assetNo)
  }
}
