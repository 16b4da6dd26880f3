/**
 * The pure content of `LiveClient._process_market_feed` for one asset: each buffered raw
 * event is classified by its flag bits (trade first, then depth or BBO, then snapshot),
 * turned into its typed value and offered, without blocking, to the matching bounded
 * channel; an event that finds its channel full is dropped.
 */
module Feed {
  import opened Models
  import opened Fifos

  /**
   * The package-level flag constants TRADE_EVENT, DEPTH_EVENT, DEPTH_BBO_EVENT and
   * DEPTH_SNAPSHOT_EVENT. Their values live outside the modelled files, so every
   * statement here holds whatever bits they are.
   */
  datatype EventMasks = EventMasks(trade: bv64, depth: bv64, depthBbo: bv64, depthSnapshot: bv64)

  /** Where an event goes: one of the three channels, or nowhere. */
  datatype Route = ToTrades | ToBooks | ToSnapshots | Unrouted

  /**
   * The if/elif chain of the inner loop, with its precedence: any trade bit wins, then any
   * depth or BBO bit, then the snapshot bit; an event with none of them goes nowhere.
   */
  function Classify(m: EventMasks, ev: bv64): (r: Route)
    ensures r == ToTrades <==> ev & m.trade != 0
    ensures r == ToBooks <==> ev & m.trade == 0 && ev & (m.depth | m.depthBbo) != 0
    ensures r == ToSnapshots <==>
      ev & m.trade == 0 && ev & (m.depth | m.depthBbo) == 0 && ev & m.depthSnapshot != 0
    ensures r == Unrouted <==>
      ev & m.trade == 0 && ev & (m.depth | m.depthBbo) == 0 && ev & m.depthSnapshot == 0
  {
    if ev & m.trade != 0 then ToTrades
    else if ev & (m.depth | m.depthBbo) != 0 then ToBooks
    else if ev & m.depthSnapshot != 0 then ToSnapshots
    else Unrouted
  }

  /** The client's three bounded queues. */
  datatype Channels = Channels(trades: Fifo<Trade>, books: Fifo<BookUpdate>, snapshots: Fifo<DepthSnapshot>) {
    predicate Valid() {
      trades.Valid() && books.Valid() && snapshots.Valid()
    }

    predicate SameCapacities(other: Channels) {
      trades.maxsize == other.trades.maxsize && books.maxsize == other.books.maxsize
      && snapshots.maxsize == other.snapshots.maxsize
    }
  }

  /**
   * One pass of the inner loop. Book updates and snapshots are read from the asset's
   * current depth but carry the event's own exchange timestamp.
   */
  function Dispatch(m: EventMasks, depth: MarketDepth, assetNo: int, ch: Channels, e: RawEvent): (r: Channels)
    ensures r.SameCapacities(ch)
    ensures ch.Valid() ==> r.Valid()
    ensures Classify(m, e.ev) != ToTrades ==> r.trades == ch.trades
    ensures Classify(m, e.ev) != ToBooks ==> r.books == ch.books
    ensures Classify(m, e.ev) != ToSnapshots ==> r.snapshots == ch.snapshots
  {
    match Classify(m, e.ev)
    case ToTrades => ch.(trades := ch.trades.PutNowait(TradeFromEvent(e, assetNo)).0)
    case ToBooks => ch.(books := ch.books.PutNowait(BookUpdateFromDepth(depth, e.exchTs, assetNo)).0)
    case ToSnapshots => ch.(snapshots := ch.snapshots.PutNowait(SnapshotFromDepth(depth, e.exchTs, assetNo)).0)
    case Unrouted => ch
  }

  /** The inner loop over an asset's buffered events, in buffer order. */
  function DemuxEvents(m: EventMasks, depth: MarketDepth, assetNo: int, ch: Channels, events: seq<RawEvent>): (r: Channels)
    ensures r.SameCapacities(ch)
    ensures ch.Valid() ==> r.Valid()
  {
    if events == [] then ch
    else Dispatch(m, depth, assetNo, DemuxEvents(m, depth, assetNo, ch, events[..|events| - 1]), events[|events| - 1])
  }

  /** The events of the buffer that take the given route, in buffer order. */
  function EventsOn(m: EventMasks, events: seq<RawEvent>, route: Route): (r: seq<RawEvent>)
    ensures |r| <= |events|
  {
    if events == [] then []
    else
      var init := EventsOn(m, events[..|events| - 1], route);
      var last := events[|events| - 1];
      if Classify(m, last.ev) == route then init + [last] else init
  }

  /** The last event of a buffer joins the route it takes, and only that one. */
  lemma EventsOnSnoc(m: EventMasks, events: seq<RawEvent>, route: Route)
    requires events != []
    ensures var last := events[|events| - 1];
      multiset(EventsOn(m, events, route)) ==
      multiset(EventsOn(m, events[..|events| - 1], route))
      + (if Classify(m, last.ev) == route then multiset{last} else multiset{})
  {
  }

  /** Every event takes exactly one route: the four routes partition the buffer. */
  lemma {:induction false} RoutesPartition(m: EventMasks, events: seq<RawEvent>)
    ensures multiset(EventsOn(m, events, ToTrades)) + multiset(EventsOn(m, events, ToBooks))
            + multiset(EventsOn(m, events, ToSnapshots)) + multiset(EventsOn(m, events, Unrouted))
            == multiset(events)
  {
    if events != [] {
      var init := events[..|events| - 1];
      var last := events[|events| - 1];
      RoutesPartition(m, init);
      EventsOnSnoc(m, events, ToTrades);
      EventsOnSnoc(m, events, ToBooks);
      EventsOnSnoc(m, events, ToSnapshots);
      EventsOnSnoc(m, events, Unrouted);
      MultisetSnoc(events);
      AddToOneRoute(multiset(EventsOn(m, init, ToTrades)), multiset(EventsOn(m, init, ToBooks)),
                    multiset(EventsOn(m, init, ToSnapshots)), multiset(EventsOn(m, init, Unrouted)),
                    last, Classify(m, last.ev));
    }
  }

  /** A non-empty sequence's multiset is that of its front plus its last element. */
  lemma MultisetSnoc<T>(s: seq<T>)
    requires s != []
    ensures multiset(s) == multiset(s[..|s| - 1]) + multiset{s[|s| - 1]}
  {
    assert s == s[..|s| - 1] + [s[|s| - 1]];
  }

  /** Adding one element to whichever of four parts `r` names adds it to their sum. */
  lemma AddToOneRoute<T>(t: multiset<T>, b: multiset<T>, s: multiset<T>, u: multiset<T>, x: T, r: Route)
    ensures (t + (if r == ToTrades then multiset{x} else multiset{}))
            + (b + (if r == ToBooks then multiset{x} else multiset{}))
            + (s + (if r == ToSnapshots then multiset{x} else multiset{}))
            + (u + (if r == Unrouted then multiset{x} else multiset{}))
            == t + b + s + u + multiset{x}
  {
  }

  /** `[f(x) for x in s]`. */
  function Map<A, B>(f: A -> B, s: seq<A>): (r: seq<B>)
    ensures |r| == |s|
    ensures forall k :: 0 <= k < |s| ==> r[k] == f(s[k])
  {
    if s == [] then [] else Map(f, s[..|s| - 1]) + [f(s[|s| - 1])]
  }

  function TradeMaker(assetNo: int): RawEvent -> Trade {
    e => TradeFromEvent(e, assetNo)
  }

  function BookMaker(depth: MarketDepth, assetNo: int): RawEvent -> BookUpdate {
    (e: RawEvent) => BookUpdateFromDepth(depth, e.exchTs, assetNo)
  }

  function SnapshotMaker(depth: MarketDepth, assetNo: int): RawEvent -> DepthSnapshot {
    (e: RawEvent) => SnapshotFromDepth(depth, e.exchTs, assetNo)
  }

  /** What the pass offers to each channel: the typed values of the events routed there, in order. */
  function TradesOffered(m: EventMasks, assetNo: int, events: seq<RawEvent>): seq<Trade> {
    Map(TradeMaker(assetNo), EventsOn(m, events, ToTrades))
  }

  function BooksOffered(m: EventMasks, depth: MarketDepth, assetNo: int, events: seq<RawEvent>): seq<BookUpdate> {
    Map(BookMaker(depth, assetNo), EventsOn(m, events, ToBooks))
  }

  function SnapshotsOffered(m: EventMasks, depth: MarketDepth, assetNo: int, events: seq<RawEvent>): seq<DepthSnapshot> {
    Map(SnapshotMaker(depth, assetNo), EventsOn(m, events, ToSnapshots))
  }

  lemma MapSnoc<A, B>(f: A -> B, s: seq<A>, x: A)
    ensures Map(f, s + [x]) == Map(f, s) + [f(x)]
  {
    assert (s + [x])[..|s|] == s;
  }

  lemma PutAllSnoc<T>(q: Fifo<T>, xs: seq<T>, x: T)
    ensures PutAll(q, xs + [x]) == PutAll(q, xs).PutNowait(x).0
  {
    assert (xs + [x])[..|xs|] == xs;
  }

  /** The pass is, channel by channel, a batch of non-blocking puts of exactly what is routed there. */
  lemma {:induction false} DemuxIsPutAllPerChannel(
    m: EventMasks, depth: MarketDepth, assetNo: int, ch: Channels, events: seq<RawEvent>)
    ensures DemuxEvents(m, depth, assetNo, ch, events) ==
      Channels(PutAll(ch.trades, TradesOffered(m, assetNo, events)),
               PutAll(ch.books, BooksOffered(m, depth, assetNo, events)),
               PutAll(ch.snapshots, SnapshotsOffered(m, depth, assetNo, events)))
  {
    if events != [] {
      var init := events[..|events| - 1];
      var e := events[|events| - 1];
      DemuxIsPutAllPerChannel(m, depth, assetNo, ch, init);
      assert events == init + [e];
      match Classify(m, e.ev)
      case ToTrades =>
        MapSnoc(TradeMaker(assetNo), EventsOn(m, init, ToTrades), e);
        PutAllSnoc(ch.trades, TradesOffered(m, assetNo, init), TradeFromEvent(e, assetNo));
      case ToBooks =>
        MapSnoc(BookMaker(depth, assetNo), EventsOn(m, init, ToBooks), e);
        PutAllSnoc(ch.books, BooksOffered(m, depth, assetNo, init), BookUpdateFromDepth(depth, e.exchTs, assetNo));
      case ToSnapshots =>
        MapSnoc(SnapshotMaker(depth, assetNo), EventsOn(m, init, ToSnapshots), e);
        PutAllSnoc(ch.snapshots, SnapshotsOffered(m, depth, assetNo, init), SnapshotFromDepth(depth, e.exchTs, assetNo));
      case Unrouted =>
    }
  }

  /**
   * What each channel holds after the pass: its old contents followed by the earliest of
   * the values routed to it that fit; the later ones are the dropped events. Within a
   * channel the buffer's order is kept.
   */
  lemma DemuxChannels(m: EventMasks, depth: MarketDepth, assetNo: int, ch: Channels, events: seq<RawEvent>)
    requires ch.Valid()
    ensures var r := DemuxEvents(m, depth, assetNo, ch, events);
      var ts := TradesOffered(m, assetNo, events);
      var bs := BooksOffered(m, depth, assetNo, events);
      var ss := SnapshotsOffered(m, depth, assetNo, events);
      && r.trades.items == ch.trades.items + ts[..Admitted(ch.trades, |ts|)]
      && r.books.items == ch.books.items + bs[..Admitted(ch.books, |bs|)]
      && r.snapshots.items == ch.snapshots.items + ss[..Admitted(ch.snapshots, |ss|)]
  {
    DemuxIsPutAllPerChannel(m, depth, assetNo, ch, events);
    PutAllKeepsEarliest(ch.trades, TradesOffered(m, assetNo, events));
    PutAllKeepsEarliest(ch.books, BooksOffered(m, depth, assetNo, events));
    PutAllKeepsEarliest(ch.snapshots, SnapshotsOffered(m, depth, assetNo, events));
  }

  /** Book updates and snapshots are stamped with their event's exchange time, not the poll time. */
  lemma OfferedTimestamps(m: EventMasks, depth: MarketDepth, assetNo: int, events: seq<RawEvent>)
    ensures var bs := BooksOffered(m, depth, assetNo, events);
      var es := EventsOn(m, events, ToBooks);
      |bs| == |es| && forall k :: 0 <= k < |bs| ==> bs[k].timestamp == es[k].exchTs && bs[k].assetNo == assetNo
    ensures var ss := SnapshotsOffered(m, depth, assetNo, events);
      var es := EventsOn(m, events, ToSnapshots);
      |ss| == |es| && forall k :: 0 <= k < |ss| ==> ss[k].timestamp == es[k].exchTs && ss[k].assetNo == assetNo
  {
  }
}
