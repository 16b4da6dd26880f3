/**
 * The pure content of `LiveClient._update_health`: one pass folds the per-asset latency
 * samples into a brand-new `ConnectionHealth`, and the connection-lost callback fires
 * only on a connected-to-disconnected edge between consecutive passes.
 */
module Health {
  import opened Models

  /** `feed_latency(asset)`: (exchange time, local time). */
  datatype FeedSample = FeedSample(exchTs: int, localTs: int)

  /** `order_latency(asset)`: (request time, exchange time, response time). */
  datatype OrderSample = OrderSample(reqTs: int, exchTs: int, respTs: int)

  /**
   * What one pass learns about one asset: the answers of the two latency accessors,
   * None where the Bot returned no sample (or the call raised, which the pass logs and skips).
   */
  datatype AssetLatency = AssetLatency(feed: Option<FeedSample>, order: Option<OrderSample>)

  /** One iteration of the pass's loop, with its five locals held as a `ConnectionHealth`. */
  function Absorb(h: ConnectionHealth, s: AssetLatency): (r: ConnectionHealth)
    ensures r.connected <==> h.connected || s.feed.Some?
    ensures s.feed.None? ==> r.feedLatencyNs == h.feedLatencyNs && r.lastFeedTime == h.lastFeedTime
    ensures s.feed.Some? ==>
      && r.feedLatencyNs == Some(s.feed.value.localTs - s.feed.value.exchTs)
      && r.lastFeedTime == Some(s.feed.value.localTs)
    ensures s.order.None? ==> r.orderLatencyNs == h.orderLatencyNs && r.lastOrderTime == h.lastOrderTime
    ensures s.order.Some? ==>
      && r.orderLatencyNs == Some(s.order.value.respTs - s.order.value.reqTs)
      && r.lastOrderTime == Some(s.order.value.respTs)
  {
    var h1 :=
      if s.feed.Some? then
        h.(connected := true,
           feedLatencyNs := Some(s.feed.value.localTs - s.feed.value.exchTs),
           lastFeedTime := Some(s.feed.value.localTs))
      else h;
    if s.order.Some? then
      h1.(orderLatencyNs := Some(s.order.value.respTs - s.order.value.reqTs),
          lastOrderTime := Some(s.order.value.respTs))
    else h1
  }

  /** Asset `k` is the last one, in asset order, that returned a feed-latency sample. */
  predicate LastFeedAt(samples: seq<AssetLatency>, k: int) {
    0 <= k < |samples| && samples[k].feed.Some?
    && forall j :: k < j < |samples| ==> samples[j].feed.None?
  }

  /** Asset `k` is the last one, in asset order, that returned an order-latency sample. */
  predicate LastOrderAt(samples: seq<AssetLatency>, k: int) {
    0 <= k < |samples| && samples[k].order.Some?
    && forall j :: k < j < |samples| ==> samples[j].order.None?
  }

  /**
   * A whole pass over the assets, from the all-absent locals. `connected` holds iff some
   * asset returned a feed sample, and the feed latency and time are present exactly then.
   */
  function HealthPass(samples: seq<AssetLatency>): (h: ConnectionHealth)
    ensures h.connected <==> exists k :: 0 <= k < |samples| && samples[k].feed.Some?
    ensures h.feedLatencyNs.Some? == h.connected && h.lastFeedTime.Some? == h.connected
    ensures h.lastOrderTime.Some? == h.orderLatencyNs.Some?
  {
    if samples == [] then Disconnected
    else
      var n := |samples| - 1;
      assert forall k :: 0 <= k < n ==> samples[..n][k] == samples[k];
      Absorb(HealthPass(samples[..n]), samples[n])
  }

  /** The last asset, in asset order, that returned a feed sample; None when none did. */
  function LastFeedReporter(samples: seq<AssetLatency>): (k: Option<nat>)
    ensures k.Some? ==> LastFeedAt(samples, k.value)
    ensures k.None? ==> forall j :: 0 <= j < |samples| ==> samples[j].feed.None?
  {
    if samples == [] then None
    else if samples[|samples| - 1].feed.Some? then Some(|samples| - 1)
    else LastFeedReporter(samples[..|samples| - 1])
  }

  /** The last asset, in asset order, that returned an order sample; None when none did. */
  function LastOrderReporter(samples: seq<AssetLatency>): (k: Option<nat>)
    ensures k.Some? ==> LastOrderAt(samples, k.value)
    ensures k.None? ==> forall j :: 0 <= j < |samples| ==> samples[j].order.None?
  {
    if samples == [] then None
    else if samples[|samples| - 1].order.Some? then Some(|samples| - 1)
    else LastOrderReporter(samples[..|samples| - 1])
  }

  /**
   * A pass is connected exactly when some asset reported a feed sample, and then its feed
   * latency and last feed time are those of the last asset that did.
   */
  lemma {:induction false} FeedFromLastReporter(samples: seq<AssetLatency>)
    ensures var h := HealthPass(samples);
      match LastFeedReporter(samples)
      case None => !h.connected
      case Some(k) =>
        && h.connected
        && h.feedLatencyNs == Some(samples[k].feed.value.localTs - samples[k].feed.value.exchTs)
        && h.lastFeedTime == Some(samples[k].feed.value.localTs)
  {
    if samples != [] {
      var init := samples[..|samples| - 1];
      FeedFromLastReporter(init);
    }
  }

  /**
   * A pass has an order latency exactly when some asset reported an order sample, and then
   * it and the last order time are those of the last asset that did.
   */
  lemma {:induction false} OrderFromLastReporter(samples: seq<AssetLatency>)
    ensures var h := HealthPass(samples);
      match LastOrderReporter(samples)
      case None => h.orderLatencyNs == None && h.lastOrderTime == None
      case Some(k) =>
        && h.orderLatencyNs == Some(samples[k].order.value.respTs - samples[k].order.value.reqTs)
        && h.lastOrderTime == Some(samples[k].order.value.respTs)
  {
    if samples != [] {
      var init := samples[..|samples| - 1];
      OrderFromLastReporter(init);
    }
  }

  /** The callback condition: the previous snapshot was connected and the new one is not. */
  predicate ConnectionLost(previous: ConnectionHealth, current: ConnectionHealth) {
    previous.connected && !current.connected
  }

  /**
   * Over consecutive passes whose `connected` flags are `conns`, starting from a snapshot
   * whose flag is `prev`: which passes fire the callback.
   */
  function Fired(prev: bool, conns: seq<bool>): (r: seq<bool>)
    ensures |r| == |conns|
    decreases |conns|
  {
    if conns == [] then [] else [prev && !conns[0]] + Fired(conns[0], conns[1..])
  }

  /** Pass `k` fires iff the pass before it (or the starting snapshot) was connected and pass `k` is not. */
  lemma {:induction false} FiredAt(prev: bool, conns: seq<bool>, k: nat)
    requires k < |conns|
    ensures Fired(prev, conns)[k] == ((if k == 0 then prev else conns[k - 1]) && !conns[k])
    decreases k
  {
    if k > 0 {
      FiredAt(conns[0], conns[1..], k - 1);
    }
  }

  function CountTrue(s: seq<bool>): nat {
    if s == [] then 0 else (if s[0] then 1 else 0) + CountTrue(s[1..])
  }

  /** A run of disconnected passes fires the callback once if it starts from a connected snapshot, else never. */
  lemma {:induction false} OneFirePerOutage(prev: bool, conns: seq<bool>)
    requires forall k :: 0 <= k < |conns| ==> !conns[k]
    ensures CountTrue(Fired(prev, conns)) == if prev && |conns| > 0 then 1 else 0
    decreases |conns|
  {
    if conns != [] {
      OneFirePerOutage(conns[0], conns[1..]);
    }
  }

  /** Between any two firings there is a pass that found the connection up again. */
  lemma FiringsSeparatedByReconnect(prev: bool, conns: seq<bool>, i: nat, j: nat)
    requires i < j < |conns|
    requires Fired(prev, conns)[i] && Fired(prev, conns)[j]
    ensures exists k :: i < k < j && conns[k]
  {
    FiredAt(prev, conns, i);
    FiredAt(prev, conns, j);
    assert conns[j - 1] && j - 1 != i;
  }
}
