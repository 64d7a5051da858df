/**
 * Market microstructure metrics and the feed's snapshot cache
 * (plasmatrader_core/market_feed.py). Messages arrive already decoded: a
 * message is its optional stream name and its optional payload, and a payload
 * is the set of fields the core reads from it, each possibly absent.
 */
module MarketFeed {
  import opened Wrappers
  import opened Numerics
  import opened CoreEngine

  // ---------------------------------------------------------------------------
  // MarketMicrostructure
  // ---------------------------------------------------------------------------

  /** Relative spread of ask over bid, in basis points of the mid price. */
  function RelativeSpread(ask: real, bid: real): (bps: real)
    ensures ask <= 0.0 || bid <= 0.0 ==> bps == 0.0
    // the zero-mid guard never fires: both quotes positive gives the formula
    ensures ask > 0.0 && bid > 0.0 ==> bps == (ask - bid) / ((ask + bid) / 2.0) * 10000.0
    ensures ask > 0.0 && bid > 0.0 ==> (bps > 0.0 <==> ask > bid) && (bps < 0.0 <==> ask < bid)
    ensures -20000.0 < bps < 20000.0
  {
    if ask <= 0.0 || bid <= 0.0 then 0.0
    else
      var mid := (ask + bid) / 2.0;
      if mid == 0.0 then 0.0
      else
        var ratio := (ask - bid) / mid;
        assert -2.0 < ratio < 2.0 by {
          QuotientBelow(ask - bid, mid, 2.0);
          QuotientAbove(ask - bid, mid, -2.0);
        }
        ratio * 10000.0
  }

  /** Total quantity over the levels of one side of the book. */
  function TotalQty(levels: seq<BookLevel>): (total: real)
    ensures (forall i :: 0 <= i < |levels| ==> levels[i].qty >= 0.0) ==> total >= 0.0
  {
    if levels == [] then 0.0 else TotalQty(levels[..|levels| - 1]) + levels[|levels| - 1].qty
  }

  /** The notional resting at one level. */
  function Notional(level: BookLevel): (v: real)
    ensures level.price >= 0.0 && level.qty >= 0.0 ==> v >= 0.0
  {
    level.price * level.qty
  }

  /** Total notional (price times quantity) over the levels of one side. */
  function TotalValue(levels: seq<BookLevel>): (total: real)
    ensures (forall i :: 0 <= i < |levels| ==> levels[i].price >= 0.0 && levels[i].qty >= 0.0) ==> total >= 0.0
  {
    if levels == [] then 0.0
    else TotalValue(levels[..|levels| - 1]) + Notional(levels[|levels| - 1])
  }

  /** The bid/ask volume ratio; Unbounded stands for float('inf'). */
  datatype Pressure = Ratio(value: real) | Unbounded

  function BuySellPressure(bids: seq<BookLevel>, asks: seq<BookLevel>): (p: Pressure)
    ensures TotalQty(asks) == 0.0 ==> (p == Unbounded <==> TotalQty(bids) > 0.0)
    ensures TotalQty(asks) == 0.0 && TotalQty(bids) <= 0.0 ==> p == Ratio(1.0)
    ensures TotalQty(asks) != 0.0 ==> p == Ratio(TotalQty(bids) / TotalQty(asks))
    ensures ((forall i :: 0 <= i < |bids| ==> bids[i].qty >= 0.0) &&
             (forall i :: 0 <= i < |asks| ==> asks[i].qty >= 0.0)) ==> p.Unbounded? || p.value >= 0.0
  {
    var totalBidVolume := TotalQty(bids);
    var totalAskVolume := TotalQty(asks);
    if totalAskVolume == 0.0 then
      (if totalBidVolume > 0.0 then Unbounded else Ratio(1.0))
    else
      Ratio(totalBidVolume / totalAskVolume)
  }

  /** The notional resting in the given levels of both sides of the book. */
  function InstantLiquidity(bids: seq<BookLevel>, asks: seq<BookLevel>): (usd: real)
    ensures bids == [] && asks == [] ==> usd == 0.0
    ensures usd == TotalValue(bids + asks)
  {
    TotalValueAppend(bids, asks);
    TotalValue(bids) + TotalValue(asks)
  }

  /** Notional is additive over concatenated books. */
  lemma {:induction false} TotalValueAppend(a: seq<BookLevel>, b: seq<BookLevel>)
    ensures TotalValue(a + b) == TotalValue(a) + TotalValue(b)
  {
    if b != [] {
      var ab := a + b;
      assert ab[..|ab| - 1] == a + b[..|b| - 1];
      assert ab[|ab| - 1] == b[|b| - 1];
      TotalValueAppend(a, b[..|b| - 1]);
    } else {
      assert a + b == a;
    }
  }

  // ---------------------------------------------------------------------------
  // BinanceWebSocketManager's snapshot cache
  // ---------------------------------------------------------------------------

  /** The fields of a decoded payload that the cache reads; None is a missing key.
      `otherKeys` records whether the object holds any key besides these six. */
  datatype Payload = Payload(
    c: Option<real>,                 // last price (ticker)
    b: Option<real>,                 // best bid (ticker)
    a: Option<real>,                 // best ask (ticker)
    bids: Option<seq<BookLevel>>,    // depth
    asks: Option<seq<BookLevel>>,    // depth
    q: Option<real>,                 // trade quantity (trade)
    otherKeys: bool)

  /** An empty JSON object, which is falsy like a missing payload. */
  predicate EmptyPayload(p: Payload)
  {
    p.c.None? && p.b.None? && p.a.None? && p.bids.None? && p.asks.None? && p.q.None? && !p.otherKeys
  }

  /** A decoded message; None (or an empty stream name) is a missing/falsy entry. */
  datatype Message = Message(stream: Option<string>, data: Option<Payload>)

  /** The partial snapshot the manager accumulates across streams. */
  datatype FeedCache = FeedCache(
    price: Option<real>,
    bid: Option<real>,
    ask: Option<real>,
    timestamp: Option<Timestamp>,
    top5Bids: Option<seq<BookLevel>>,
    top5Asks: Option<seq<BookLevel>>,
    tradeVolume: Option<real>)

  const EmptyCache := FeedCache(None, None, None, None, None, None, None)

  /** Substring test: `pattern in s` on Python strings. */
  predicate Contains(s: string, pattern: string)
    decreases |s|
  {
    |pattern| <= |s| && (s[..|pattern|] == pattern || Contains(s[1..], pattern))
  }

  datatype StreamKind = TickerStream | DepthStream | TradeStream | OtherStream

  /** Stream dispatch, tested in the source's order: ticker, depth, trade. */
  function KindOf(stream: string): StreamKind
  {
    if Contains(stream, "@ticker") then TickerStream
    else if Contains(stream, "@depth") then DepthStream
    else if Contains(stream, "@trade") then TradeStream
    else OtherStream
  }

  predicate Ignored(msg: Message)
  {
    msg.stream.None? || msg.stream.value == [] || msg.data.None? || EmptyPayload(msg.data.value)
  }

  /** The cache after one message, and whether processing reached the emit check
      (false when the message was ignored or a missing key aborted it). */
  datatype MergeOutcome = MergeOutcome(cache: FeedCache, completed: bool)

  function Merge(c: FeedCache, msg: Message, now: Timestamp): (m: MergeOutcome)
    ensures Ignored(msg) ==> m == MergeOutcome(c, false)
    // only a ticker touches price, quotes and the heartbeat timestamp
    ensures !Ignored(msg) && KindOf(msg.stream.value) != TickerStream ==>
      m.cache.price == c.price && m.cache.bid == c.bid && m.cache.ask == c.ask && m.cache.timestamp == c.timestamp
    ensures !Ignored(msg) && KindOf(msg.stream.value) == TickerStream ==>
      m.cache.top5Bids == c.top5Bids && m.cache.top5Asks == c.top5Asks && m.cache.tradeVolume == c.tradeVolume &&
      (m.completed <==> msg.data.value.c.Some? && msg.data.value.b.Some? && msg.data.value.a.Some?) &&
      (m.completed ==> m.cache.price == msg.data.value.c && m.cache.bid == msg.data.value.b &&
                       m.cache.ask == msg.data.value.a && m.cache.timestamp == Some(now)) &&
      (!m.completed ==> m.cache.timestamp == c.timestamp)
    ensures !Ignored(msg) && KindOf(msg.stream.value) == DepthStream ==>
      m.cache.tradeVolume == c.tradeVolume &&
      (m.completed <==> msg.data.value.bids.Some? && msg.data.value.asks.Some?) &&
      (m.completed ==> m.cache.top5Bids == msg.data.value.bids && m.cache.top5Asks == msg.data.value.asks)
    ensures !Ignored(msg) && KindOf(msg.stream.value) == TradeStream ==>
      m.cache == (if msg.data.value.q.Some? then c.(tradeVolume := msg.data.value.q) else c) &&
      m.completed == msg.data.value.q.Some?
    ensures !Ignored(msg) && KindOf(msg.stream.value) == OtherStream ==> m == MergeOutcome(c, true)
    // a cached field, once present, stays present
    ensures c.price.Some? ==> m.cache.price.Some?
    ensures c.timestamp.Some? ==> m.cache.timestamp.Some?
  {
    if Ignored(msg) then MergeOutcome(c, false)
    else
      var payload := msg.data.value;
      match KindOf(msg.stream.value)
      case TickerStream =>
        if payload.c.None? then MergeOutcome(c, false)
        else if payload.b.None? then MergeOutcome(c.(price := payload.c), false)
        else if payload.a.None? then MergeOutcome(c.(price := payload.c, bid := payload.b), false)
        else MergeOutcome(c.(price := payload.c, bid := payload.b, ask := payload.a, timestamp := Some(now)), true)
      case DepthStream =>
        if payload.bids.None? then MergeOutcome(c, false)
        else if payload.asks.None? then MergeOutcome(c.(top5Bids := payload.bids), false)
        else MergeOutcome(c.(top5Bids := payload.bids, top5Asks := payload.asks), true)
      case TradeStream =>
        if payload.q.None? then MergeOutcome(c, false)
        else MergeOutcome(c.(tradeVolume := payload.q), true)
      case OtherStream => MergeOutcome(c, true)
  }

  /** The snapshot formed from the cache, once it holds a price and a timestamp. */
  function Snapshot(c: FeedCache, symbol: string): (md: Option<MarketData>)
    ensures md.Some? <==> c.price.Some? && c.timestamp.Some?
    ensures md.Some? ==>
      md.value.price == c.price.value && md.value.timestamp == c.timestamp.value && md.value.symbol == symbol &&
      md.value.bid == c.bid.GetOr(0.0) && md.value.ask == c.ask.GetOr(0.0) &&
      md.value.spread == RelativeSpread(md.value.ask, md.value.bid) &&
      md.value.top5Bids == c.top5Bids.GetOr([]) && md.value.top5Asks == c.top5Asks.GetOr([]) &&
      md.value.tradeVolume == c.tradeVolume.GetOr(0.0)
  {
    if c.price.Some? && c.timestamp.Some? then
      Some(MarketData(
        c.timestamp.value, symbol, c.price.value, c.bid.GetOr(0.0), c.ask.GetOr(0.0),
        RelativeSpread(c.ask.GetOr(0.0), c.bid.GetOr(0.0)),
        c.top5Bids.GetOr([]), c.top5Asks.GetOr([]), c.tradeVolume.GetOr(0.0)))
    else None
  }

  /** What one message hands to the callback, if anything. */
  function Emission(c: FeedCache, msg: Message, now: Timestamp, symbol: string): Option<MarketData>
  {
    var m := Merge(c, msg, now);
    if m.completed then Snapshot(m.cache, symbol) else None
  }

  /** A message and the clock reading at which it was handled. */
  datatype Arrival = Arrival(msg: Message, at: Timestamp)

  /** The cache after a run of messages, and every snapshot they emitted, in order. */
  function Run(c: FeedCache, arrivals: seq<Arrival>, symbol: string): (r: (FeedCache, seq<MarketData>))
    ensures |r.1| <= |arrivals|
  {
    if arrivals == [] then (c, [])
    else
      var prev := Run(c, arrivals[..|arrivals| - 1], symbol);
      var last := arrivals[|arrivals| - 1];
      var e := Emission(prev.0, last.msg, last.at, symbol);
      (Merge(prev.0, last.msg, last.at).cache, prev.1 + (if e.Some? then [e.value] else []))
  }

  predicate IsTicker(msg: Message)
  {
    !Ignored(msg) && KindOf(msg.stream.value) == TickerStream
  }

  /** Before the first ticker message, nothing is ever emitted: depth and trade
      messages alone never give the cache a heartbeat timestamp. */
  lemma {:induction false} NoEmissionBeforeTicker(c: FeedCache, arrivals: seq<Arrival>, symbol: string)
    requires c.timestamp.None?
    requires forall i :: 0 <= i < |arrivals| ==> !IsTicker(arrivals[i].msg)
    ensures Run(c, arrivals, symbol).1 == []
    ensures Run(c, arrivals, symbol).0.timestamp.None?
  {
    if arrivals != [] {
      var init := arrivals[..|arrivals| - 1];
      assert forall i :: 0 <= i < |init| ==> init[i] == arrivals[i];
      NoEmissionBeforeTicker(c, init, symbol);
    }
  }

  /** Once a complete ticker has been cached, every message that is processed to
      the end emits a snapshot. */
  lemma {:induction false} EmitsAfterFirstTicker(c: FeedCache, arrivals: seq<Arrival>, symbol: string)
    requires c.price.Some? && c.timestamp.Some?
    ensures Run(c, arrivals, symbol).0.price.Some? && Run(c, arrivals, symbol).0.timestamp.Some?
    ensures (forall i :: 0 <= i < |arrivals| ==>
               Merge(EmptyCache, arrivals[i].msg, arrivals[i].at).completed) ==>
            |Run(c, arrivals, symbol).1| == |arrivals|
  {
    if arrivals != [] {
      var init := arrivals[..|arrivals| - 1];
      assert forall i :: 0 <= i < |init| ==> init[i] == arrivals[i];
      EmitsAfterFirstTicker(c, init, symbol);
      var prev := Run(c, init, symbol).0;
      var last := arrivals[|arrivals| - 1];
      CompletionIgnoresCache(prev, EmptyCache, last.msg, last.at);
    }
  }

  /** Whether a message is processed to the end depends on the message alone. */
  lemma CompletionIgnoresCache(c1: FeedCache, c2: FeedCache, msg: Message, now: Timestamp)
    ensures Merge(c1, msg, now).completed == Merge(c2, msg, now).completed
  {
  }

  /** ASCII upper-casing, as str.upper() on the exchange's symbols: small
      letters become capitals, every other character is kept. */
  function Upper(s: string): (u: string)
    ensures |u| == |s|
    ensures forall i :: 0 <= i < |u| ==> !('a' <= u[i] <= 'z')
    ensures forall i :: 0 <= i < |s| && !('a' <= s[i] <= 'z') ==> u[i] == s[i]
    ensures forall i :: 0 <= i < |s| && 'a' <= s[i] <= 'z' ==> 'A' <= u[i] <= 'Z' && u[i] as int + 32 == s[i] as int
  {
    seq(|s|, i requires 0 <= i < |s| => if 'a' <= s[i] <= 'z' then (s[i] as int - 32) as char else s[i])
  }

  /** ASCII lower-casing, as str.lower() on the exchange's symbols: capitals
      become small letters, every other character is kept. */
  function Lower(s: string): (l: string)
    ensures |l| == |s|
    ensures forall i :: 0 <= i < |l| ==> !('A' <= l[i] <= 'Z')
    ensures forall i :: 0 <= i < |s| && !('A' <= s[i] <= 'Z') ==> l[i] == s[i]
    ensures forall i :: 0 <= i < |s| && 'A' <= s[i] <= 'Z' ==> 'a' <= l[i] <= 'z' && l[i] as int == s[i] as int + 32
  {
    seq(|s|, i requires 0 <= i < |s| => if 'A' <= s[i] <= 'Z' then (s[i] as int + 32) as char else s[i])
  }

  /** The symbol stamped on a snapshot does not depend on the case the manager
      was given: lower-casing it first and upper-casing later is upper-casing. */
  lemma {:induction false} UpperIgnoresLower(s: string)
    ensures Upper(Lower(s)) == Upper(s)
  {
    var l := Lower(s);
    forall i | 0 <= i < |s|
      ensures Upper(l)[i] == Upper(s)[i]
    {
      if 'A' <= s[i] <= 'Z' {
        assert 'a' <= l[i] <= 'z';
        assert Upper(l)[i] as int == s[i] as int;
      }
    }
  }

  /** Upper-casing is idempotent. */
  lemma {:induction false} UpperIdempotent(s: string)
    ensures Upper(Upper(s)) == Upper(s)
  {
    var u := Upper(s);
    assert forall i :: 0 <= i < |u| ==> Upper(u)[i] == u[i];
  }

  /** The stream manager's message handler; connection handling is not modelled. */
  class BinanceWebSocketManager {
    const symbol: string
    var dataCache: FeedCache

    constructor (symbol: string)
      ensures this.symbol == Lower(symbol)
      ensures dataCache == EmptyCache
    {
      this.symbol := Lower(symbol);
      dataCache := EmptyCache;
    }

    /** Folds one message into the cache field by field, stopping at the first
        missing key, and returns the snapshot handed to the callback, if any. */
    method HandleMessage(msg: Message, now: Timestamp) returns (emitted: Option<MarketData>)
      modifies this
      ensures dataCache == Merge(old(dataCache), msg, now).cache
      ensures emitted == Emission(old(dataCache), msg, now, Upper(symbol))
    {
      emitted := None;
      if msg.stream.None? || msg.stream.value == [] || msg.data.None? || EmptyPayload(msg.data.value) {
        return;
      }
      var stream, payload := msg.stream.value, msg.data.value;
      if Contains(stream, "@ticker") {
        if payload.c.None? { return; }
        dataCache := dataCache.(price := payload.c);
        if payload.b.None? { return; }
        dataCache := dataCache.(bid := payload.b);
        if payload.a.None? { return; }
        dataCache := dataCache.(ask := payload.a);
        dataCache := dataCache.(timestamp := Some(now));
      } else if Contains(stream, "@depth") {
        if payload.bids.None? { return; }
        dataCache := dataCache.(top5Bids := payload.bids);
        if payload.asks.None? { return; }
        dataCache := dataCache.(top5Asks := payload.asks);
      } else if Contains(stream, "@trade") {
        if payload.q.None? { return; }
        dataCache := dataCache.(tradeVolume := payload.q);
      }
      if dataCache.price.Some? && dataCache.timestamp.Some? {
        emitted := Snapshot(dataCache, Upper(symbol));
      }
    }
  }
}
