/** Queue-position matching of resting orders against inferred trade flow. */
module Matcher {
  import opened Numeric
  import opened Domain
  import opened Ledger
  import opened TradeFlow
  import opened SyntheticFlow

  datatype PendingOrder = PendingOrder(
    request: OrderRequest, orderId: string, remaining: int, filled: int,
    queueAhead: int, activated: bool, synthetic: bool)

  function CanFillImmediately(r: OrderRequest, tick: MarketTick, flow: TradeFlow): bool {
    var now := QuoteOf(tick);
    r.instrument == tick.instrument &&
    (r.priceType.Market? ||
     (if r.side.Buy? then
        r.limitPrice >= BestAsk(now) - PRICE_EPSILON ||
        (flow.tradedVolume > 0 &&
         (r.limitPrice > LastTradeReference(now) || r.limitPrice > flow.vwap ||
          (r.limitPrice > BestBid(now) && TradedAt(flow, BestBid(now)) > 0)))
      else
        r.limitPrice <= BestBid(now) + PRICE_EPSILON ||
        (flow.tradedVolume > 0 &&
         (r.limitPrice < LastTradeReference(now) || r.limitPrice < flow.vwap ||
          (r.limitPrice < BestAsk(now) && TradedAt(flow, BestAsk(now)) > 0)))))
  }

  function FillPrice(r: OrderRequest, tick: MarketTick, previous: Option<Quote>): real {
    var now := QuoteOf(tick);
    if r.priceType.Market? then
      if r.side.Buy? then BestAsk(now) else BestBid(now)
    else if r.side.Buy? then
      if r.limitPrice > BestAsk(now) && previous.Some? && r.limitPrice > BestAsk(previous.value)
      then MaxReal(BestAsk(now), BestAsk(previous.value))
      else r.limitPrice
    else
      if r.limitPrice < BestBid(now) && previous.Some? && r.limitPrice < BestBid(previous.value)
      then MinReal(BestBid(now), BestBid(previous.value))
      else r.limitPrice
  }

  /** The decision to fill and the price to fill at agree: when nothing traded, an order fills at once exactly if the price
      it would be filled at, whatever the quote before, is no better than what the touch offers. */
  lemma QuietFillsPayTheTouch(r: OrderRequest, tick: MarketTick, flow: TradeFlow, previous: Option<Quote>)
    requires r.instrument == tick.instrument && flow.tradedVolume <= 0
    ensures CanFillImmediately(r, tick, flow) <==>
      if r.side.Buy? then FillPrice(r, tick, previous) >= BestAsk(QuoteOf(tick)) - PRICE_EPSILON
      else FillPrice(r, tick, previous) <= BestBid(QuoteOf(tick)) + PRICE_EPSILON
  {
  }

  /** A more generous limit fills whenever a tighter one does, whatever traded. */
  lemma BetterLimitsFillToo(r: OrderRequest, limit: real, tick: MarketTick, flow: TradeFlow)
    requires CanFillImmediately(r, tick, flow)
    requires if r.side.Buy? then limit >= r.limitPrice else limit <= r.limitPrice
    ensures CanFillImmediately(r.(limitPrice := limit), tick, flow)
  {
  }

  /** The price a native order may expect: the opposite touch for a market order; for a limit that beats the opposite touch
      now and before, the worse of the two; otherwise the limit. */
  predicate FairPrice(r: OrderRequest, tick: MarketTick, previous: Option<Quote>, price: real) {
    var ask, bid := Quoted(tick.ask, tick.last), Quoted(tick.bid, tick.last);
    match (r.priceType, r.side)
    case (Market, Buy) => price == ask
    case (Market, Sell) => price == bid
    case (Limit, Buy) =>
      if previous.Some? && r.limitPrice > ask && r.limitPrice > Quoted(previous.value.ask, previous.value.last) then
        var before := Quoted(previous.value.ask, previous.value.last);
        price >= ask && price >= before && (price == ask || price == before)
      else price == r.limitPrice
    case (Limit, Sell) =>
      if previous.Some? && r.limitPrice < bid && r.limitPrice < Quoted(previous.value.bid, previous.value.last) then
        var before := Quoted(previous.value.bid, previous.value.last);
        price <= bid && price <= before && (price == bid || price == before)
      else price == r.limitPrice
  }

  /** Native fills are fairly priced, and no other price is fair. */
  lemma FillPriceIsFair(r: OrderRequest, tick: MarketTick, previous: Option<Quote>, price: real)
    ensures FairPrice(r, tick, previous, price) <==> price == FillPrice(r, tick, previous)
  {
  }

  /** A limit of the side beats a price: it would have traded there, and better. */
  predicate Beats(side: Side, limit: real, price: real) {
    if side.Buy? then limit > price else limit < price
  }

  /** The limit of the side reaches the opposite touch, up to rounding. */
  predicate Reaches(side: Side, limit: real, tick: MarketTick) {
    if side.Buy? then limit >= Quoted(tick.ask, tick.last) - PRICE_EPSILON
    else limit <= Quoted(tick.bid, tick.last) + PRICE_EPSILON
  }

  /** Prices at which something is known to have traded: that of the last trade, the average, and the order's own touch if
      volume was inferred there. */
  function TradedPrices(side: Side, tick: MarketTick, flow: TradeFlow): set<real> {
    var touch := if side.Buy? then Quoted(tick.bid, tick.last) else Quoted(tick.ask, tick.last);
    {LastTradeReference(QuoteOf(tick)), flow.vwap} + if TradedAt(flow, touch) > 0 then {touch} else {}
  }

  /** A native order fills at once exactly if it is a market order, reaches the opposite touch, or beats a price at which
      something traded. */
  lemma FillsAtOnceExactly(r: OrderRequest, tick: MarketTick, flow: TradeFlow)
    ensures CanFillImmediately(r, tick, flow) <==>
      r.instrument == tick.instrument
      && (r.priceType.Market? || Reaches(r.side, r.limitPrice, tick)
          || (flow.tradedVolume > 0 && exists price :: price in TradedPrices(r.side, tick, flow)
                                                       && Beats(r.side, r.limitPrice, price)))
  {
    hide LastTradeReference, TradedAt;
    var touch := if r.side.Buy? then Quoted(tick.bid, tick.last) else Quoted(tick.ask, tick.last);
    var prices := TradedPrices(r.side, tick, flow);
    assert LastTradeReference(QuoteOf(tick)) in prices && flow.vwap in prices;
    assert touch in prices <== TradedAt(flow, touch) > 0;
  }

  /** A limit order never fills at a price worse than its limit. */
  lemma FillPriceWithinLimit(r: OrderRequest, tick: MarketTick, previous: Option<Quote>)
    requires r.priceType.Limit?
    ensures r.side.Buy? ==> FillPrice(r, tick, previous) <= r.limitPrice
    ensures r.side.Sell? ==> FillPrice(r, tick, previous) >= r.limitPrice
  {
  }

  /** Depth displayed at the order's own price (`estimate_queue_ahead`, `visible_queue_at_order_price`). */
  function VisibleQueue(r: OrderRequest, tick: MarketTick): int {
    var now := QuoteOf(tick);
    if r.priceType.Limit? && r.side.Buy? && tick.bidSize > 0 && SamePrice(r.limitPrice, BestBid(now)) then tick.bidSize
    else if r.priceType.Limit? && r.side.Sell? && tick.askSize > 0 && SamePrice(r.limitPrice, BestAsk(now)) then tick.askSize
    else 0
  }

  /** An order joins the queue of its own side: behind all that is displayed when its limit is its own touch, and behind
      nobody when it is not. */
  lemma JoinsItsOwnSide(r: OrderRequest, tick: MarketTick)
    ensures var touch := if r.side.Buy? then Quoted(tick.bid, tick.last) else Quoted(tick.ask, tick.last);
      var displayed := if r.side.Buy? then tick.bidSize else tick.askSize;
      VisibleQueue(r, tick)
        == if r.priceType.Limit? && -PRICE_EPSILON <= r.limitPrice - touch <= PRICE_EPSILON then Max(0, displayed) else 0
  {
  }

  /** The queue ahead after looking at the book: it can only shrink, and vanishes inside the spread. */
  function RefreshedQueue(r: OrderRequest, queueAhead: int, tick: MarketTick): int {
    var now, visible := QuoteOf(tick), VisibleQueue(r, tick);
    if visible > 0 then Min(queueAhead, visible)
    else if BestBid(now) < r.limitPrice < BestAsk(now) then 0
    else queueAhead
  }

  /** Looking at the book, an order at its own touch has at most the displayed lots ahead, and one inside the spread none. */
  lemma LooksAtTheBook(r: OrderRequest, queueAhead: int, tick: MarketTick)
    requires r.priceType.Limit?
    ensures var ask, bid := Quoted(tick.ask, tick.last), Quoted(tick.bid, tick.last);
      var touch, displayed := if r.side.Buy? then bid else ask, if r.side.Buy? then tick.bidSize else tick.askSize;
      RefreshedQueue(r, queueAhead, tick)
        == if -PRICE_EPSILON <= r.limitPrice - touch <= PRICE_EPSILON && displayed > 0 then Min(queueAhead, displayed)
           else if bid < r.limitPrice < ask then 0 else queueAhead
  {
  }

  datatype Match = Match(order: PendingOrder, volume: int)

  predicate AwaitsActivation(r: OrderRequest, tick: MarketTick) {
    r.activateAtMs > 0 && tick.timestampMs > 0 && tick.timestampMs < r.activateAtMs
  }

  /** `resting_fill_volume`: how much of a native resting order this tick fills, and its new queue position. */
  function RestingFill(o: PendingOrder, tick: MarketTick, previous: Option<Quote>): (m: Match)
    ensures m.order == o.(queueAhead := m.order.queueAhead, activated := m.order.activated)
    ensures 0 <= m.volume && (m.volume > 0 ==> m.volume <= o.remaining && o.request.instrument == tick.instrument)
  {
    if o.request.instrument != tick.instrument || o.remaining <= 0 || AwaitsActivation(o.request, tick) then
      Match(o, 0)
    else
      var flow := InferTradeFlow(previous, QuoteOf(tick));
      if CanFillImmediately(o.request, tick, flow) then
        Match(o, o.remaining)
      else if !o.activated then
        Match(o.(queueAhead := VisibleQueue(o.request, tick), activated := true), 0)
      else
        var queue := RefreshedQueue(o.request, o.queueAhead, tick);
        var traded := TradedAt(flow, o.request.limitPrice);
        if flow.tradedVolume <= 0 || traded <= 0 then
          Match(o.(queueAhead := queue), 0)
        else if queue >= traded then
          Match(o.(queueAhead := Max(0, queue - traded)), 0)
        else
          Match(o.(queueAhead := 0), Min(o.remaining, traded - queue))
  }

  /** A native order takes no part in ticks of other instruments, or before its time. */
  lemma NativeWaitsForItsTime(o: PendingOrder, tick: MarketTick, previous: Option<Quote>)
    ensures o.request.instrument != tick.instrument || 0 < tick.timestampMs < o.request.activateAtMs
            ==> RestingFill(o, tick, previous) == Match(o, 0)
  {
    hide CanFillImmediately, InferTradeFlow, VisibleQueue, RefreshedQueue, TradedAt;
  }

  /** The first tick a native order takes part in fills it whole, or else puts it behind what is displayed at its touch. */
  lemma FirstLook(o: PendingOrder, tick: MarketTick, previous: Option<Quote>)
    requires !o.activated && o.remaining > 0 && o.request.instrument == tick.instrument && o.request.activateAtMs <= 0
    ensures var m, r := RestingFill(o, tick, previous), o.request;
      var touch := if r.side.Buy? then Quoted(tick.bid, tick.last) else Quoted(tick.ask, tick.last);
      var displayed := if r.side.Buy? then tick.bidSize else tick.askSize;
      if CanFillImmediately(r, tick, InferTradeFlow(previous, QuoteOf(tick))) then m.volume == o.remaining
      else
        && m.volume == 0 && m.order.activated
        && m.order.queueAhead
           == if r.priceType.Limit? && -PRICE_EPSILON <= r.limitPrice - touch <= PRICE_EPSILON then Max(0, displayed) else 0
  {
    hide CanFillImmediately, InferTradeFlow, VisibleQueue;
    JoinsItsOwnSide(o.request, tick);
  }

  // ---- Synthetic orders ----

  function SyntheticFillPrice(r: OrderRequest, tick: MarketTick, previous: Quote): real {
    if r.side.Buy? then
      if r.limitPrice > tick.ask && r.limitPrice > previous.ask
      then MinReal(r.limitPrice, MaxReal(previous.ask, tick.ask))
      else r.limitPrice
    else
      if r.limitPrice < tick.bid && r.limitPrice < previous.bid
      then MaxReal(r.limitPrice, MinReal(previous.bid, tick.bid))
      else r.limitPrice
  }

  function SyntheticVisibleQueue(r: OrderRequest, tick: MarketTick): int {
    if r.side.Buy? && SamePrice(r.limitPrice, tick.bid) then tick.bidSize
    else if r.side.Sell? && SamePrice(r.limitPrice, tick.ask) then tick.askSize
    else 0
  }

  predicate SyntheticOrderCrossed(r: OrderRequest, tick: MarketTick, flow: Flow, scale: int) {
    if r.side.Buy? then
      || (flow.volume > 0 && (r.limitPrice > tick.last || r.limitPrice > flow.vwap))
      || r.limitPrice >= tick.ask
      || (r.limitPrice > tick.bid && VolumeAt(flow.byPrice, Key(tick.bid, scale)) > 0)
    else
      || (flow.volume > 0 && (r.limitPrice < tick.last || r.limitPrice < flow.vwap))
      || r.limitPrice <= tick.bid
      || (r.limitPrice < tick.ask && VolumeAt(flow.byPrice, Key(tick.ask, scale)) > 0)
  }

  /** The queue position a synthetic order takes when it first sees a tick. */
  function InitialSyntheticQueue(o: PendingOrder, visible: int, traded: int, ratio: real): int {
    var estimate := Ceil(ratio * Max(0, visible + traded - o.queueAhead) as real - traded as real + o.queueAhead as real);
    Min(visible, Max(0, estimate))
  }

  datatype PricedMatch = PricedMatch(order: PendingOrder, volume: int, price: real)

  /** `synthetic_resting_fill_volume`: a synthetic order fills whole or not at all. */
  function SyntheticRestingFill(o: PendingOrder, tick: MarketTick, previous: Option<Quote>, model: CostModel)
    : (m: PricedMatch)
    ensures m.order == o.(queueAhead := m.order.queueAhead, activated := m.order.activated)
    ensures 0 <= m.volume && (m.volume > 0 ==> m.volume == o.remaining && o.request.instrument == tick.instrument)
  {
    var r := o.request;
    if r.instrument != tick.instrument || o.remaining <= 0 || tick.timestampMs < r.activateAtMs || previous.None? then
      PricedMatch(o, 0, 0.0)
    else
      var flow := InferSyntheticFlow(previous, QuoteOf(tick), model);
      if SyntheticOrderCrossed(r, tick, flow, model.priceScale) then
        PricedMatch(o, o.remaining, SyntheticFillPrice(r, tick, previous.value))
      else
        var traded := VolumeAt(flow.byPrice, Key(r.limitPrice, model.priceScale));
        var visible := SyntheticVisibleQueue(r, tick);
        if !o.activated then
          var queue := InitialSyntheticQueue(o, visible, traded, model.queueAheadRatio);
          PricedMatch(o.(queueAhead := queue, activated := true), 0, 0.0)
        else if o.queueAhead < traded && traded - o.queueAhead >= o.remaining then
          PricedMatch(o, o.remaining, r.limitPrice)
        else
          PricedMatch(o.(queueAhead := Min(visible, Max(0, o.queueAhead - traded))), 0, 0.0)
  }

  /** The price a synthetic order may expect, by the prices quoted. */
  predicate FairSyntheticPrice(r: OrderRequest, tick: MarketTick, previous: Quote, price: real) {
    if r.side.Buy? then
      if r.limitPrice > tick.ask && r.limitPrice > previous.ask
      then price >= tick.ask && price >= previous.ask && (price == tick.ask || price == previous.ask)
      else price == r.limitPrice
    else
      if r.limitPrice < tick.bid && r.limitPrice < previous.bid
      then price <= tick.bid && price <= previous.bid && (price == tick.bid || price == previous.bid)
      else price == r.limitPrice
  }

  /** Synthetic fills are fairly priced, whether the order was crossed or its queue used up. */
  lemma SyntheticFillIsFair(o: PendingOrder, tick: MarketTick, previous: Option<Quote>, model: CostModel)
    requires SyntheticRestingFill(o, tick, previous, model).volume > 0
    ensures previous.Some? && tick.timestampMs >= o.request.activateAtMs
    ensures FairSyntheticPrice(o.request, tick, previous.value, SyntheticRestingFill(o, tick, previous, model).price)
  {
    hide InferSyntheticFlow, Key, VolumeAt;
  }

  /** Prices at which something is known to have traded, by the synthetic inference. */
  function SyntheticTradedPrices(side: Side, tick: MarketTick, flow: Flow, scale: int): set<real> {
    var touch := if side.Buy? then tick.bid else tick.ask;
    (if flow.volume > 0 then {tick.last, flow.vwap} else {})
    + if VolumeAt(flow.byPrice, Key(touch, scale)) > 0 then {touch} else {}
  }

  /** A synthetic order is crossed exactly if it reaches the opposite touch or beats a price at which something traded. */
  lemma CrossedExactly(r: OrderRequest, tick: MarketTick, flow: Flow, scale: int)
    ensures SyntheticOrderCrossed(r, tick, flow, scale) <==>
      || (if r.side.Buy? then r.limitPrice >= tick.ask else r.limitPrice <= tick.bid)
      || exists price :: price in SyntheticTradedPrices(r.side, tick, flow, scale) && Beats(r.side, r.limitPrice, price)
  {
    hide Key, VolumeAt;
    var touch := if r.side.Buy? then tick.bid else tick.ask;
    var prices := SyntheticTradedPrices(r.side, tick, flow, scale);
    assert flow.volume > 0 ==> tick.last in prices && flow.vwap in prices;
    assert VolumeAt(flow.byPrice, Key(touch, scale)) > 0 ==> touch in prices;
  }

  /** A synthetic order never joins behind more than is displayed at its price. */
  lemma JoinsWithinTheQueue(o: PendingOrder, visible: int, traded: int, ratio: real)
    requires visible >= 0
    ensures 0 <= InitialSyntheticQueue(o, visible, traded, ratio) <= visible
  {
  }

  /** Where a synthetic order joins: the share `ratio` of what stood at its price before the tick, less what traded, rounded
      up; so at the back of the displayed queue for a ratio of one, and in front for zero. */
  lemma InitialQueueIsAShare(o: PendingOrder, visible: int, traded: int, ratio: real)
    requires o.queueAhead == 0 && visible >= 0 && traded >= 0 && 0.0 <= ratio <= 1.0
    ensures var queue, ahead := InitialSyntheticQueue(o, visible, traded, ratio), ratio * (visible + traded) as real;
      && 0 <= queue <= visible
      && (queue > 0 ==> queue as real - 1.0 < ahead - traded as real)
      && (queue < visible ==> ahead - traded as real <= queue as real)
      && (ratio == 1.0 ==> queue == visible) && (ratio == 0.0 ==> queue == 0)
  {
    var stood := Max(0, visible + traded - o.queueAhead) as real;
    assert stood == (visible + traded) as real;
    ShareBounds(ratio, stood);
  }

  lemma ShareBounds(ratio: real, stood: real)
    requires 0.0 <= ratio <= 1.0 && stood >= 0.0
    ensures 0.0 <= ratio * stood <= stood
    ensures (ratio == 1.0 ==> ratio * stood == stood) && (ratio == 0.0 ==> ratio * stood == 0.0)
  {
    assert (1.0 - ratio) * stood >= 0.0;
  }

  /** The synthetic order takes part in the tick, which does not cross it. */
  predicate SyntheticRests(o: PendingOrder, tick: MarketTick, previous: Option<Quote>, model: CostModel) {
    && o.activated && o.remaining > 0 && o.request.instrument == tick.instrument
    && tick.timestampMs >= o.request.activateAtMs && previous.Some?
    && !SyntheticOrderCrossed(o.request, tick, InferSyntheticFlow(previous, QuoteOf(tick), model), model.priceScale)
  }

  function SyntheticTradedAtLimit(r: OrderRequest, tick: MarketTick, previous: Option<Quote>, model: CostModel): int {
    VolumeAt(InferSyntheticFlow(previous, QuoteOf(tick), model).byPrice, Key(r.limitPrice, model.priceScale))
  }

  /** Such a tick fills the order exactly if it trades the queue ahead and the whole order; otherwise the queue shrinks by
      what traded, and to what is displayed. */
  lemma SyntheticQueueStep(o: PendingOrder, tick: MarketTick, previous: Option<Quote>, model: CostModel)
    requires SyntheticRests(o, tick, previous, model) && o.queueAhead >= 0
    ensures var m, traded := SyntheticRestingFill(o, tick, previous, model),
                             SyntheticTradedAtLimit(o.request, tick, previous, model);
      var touch := if o.request.side.Buy? then tick.bid else tick.ask;
      var displayed := if o.request.side.Buy? then tick.bidSize else tick.askSize;
      if traded >= o.queueAhead + o.remaining then m.volume == o.remaining && m.price == o.request.limitPrice
      else
        && m.volume == 0
        && m.order.queueAhead
           == Min(if -PRICE_EPSILON <= o.request.limitPrice - touch <= PRICE_EPSILON then displayed else 0,
                  Max(0, o.queueAhead - traded))
  {
    hide InferSyntheticFlow, Key, VolumeAt, SyntheticOrderCrossed;
  }

  // ---- Queue position over a run of ticks ----

  /** The order after a tick, with the tick's fill booked. */
  function AfterTick(o: PendingOrder, tick: MarketTick, previous: Option<Quote>): PendingOrder {
    var m := RestingFill(o, tick, previous);
    m.order.(remaining := m.order.remaining - m.volume, filled := m.order.filled + m.volume)
  }

  function AfterTicks(o: PendingOrder, previous: Option<Quote>, ticks: seq<MarketTick>): PendingOrder
    decreases |ticks|
  {
    if ticks == [] then o
    else AfterTicks(AfterTick(o, ticks[0], previous), Some(QuoteOf(ticks[0])), ticks[1..])
  }

  /** What traded at the order's price between two ticks. */
  function TradedAtLimit(r: OrderRequest, previous: Option<Quote>, tick: MarketTick): (volume: int)
    ensures volume >= 0
  {
    var flow := InferTradeFlow(previous, QuoteOf(tick));
    if flow.tradedVolume <= 0 then 0 else Max(0, TradedAt(flow, r.limitPrice))
  }

  function TradedAtLimitOver(r: OrderRequest, previous: Option<Quote>, ticks: seq<MarketTick>): int
    decreases |ticks|
  {
    if ticks == [] then 0
    else TradedAtLimit(r, previous, ticks[0]) + TradedAtLimitOver(r, Some(QuoteOf(ticks[0])), ticks[1..])
  }

  /** The ticks are for the order's instrument, do not precede its activation, and never let it fill on arrival. */
  predicate NeverCross(r: OrderRequest, previous: Option<Quote>, ticks: seq<MarketTick>)
    decreases |ticks|
  {
    ticks != [] ==>
      && r.instrument == ticks[0].instrument
      && !AwaitsActivation(r, ticks[0])
      && !CanFillImmediately(r, ticks[0], InferTradeFlow(previous, QuoteOf(ticks[0])))
      && NeverCross(r, Some(QuoteOf(ticks[0])), ticks[1..])
  }

  /** Looking at the book leaves the queue of the (still live) order as it was, tick after tick. */
  predicate DepthNeverShrinksQueue(o: PendingOrder, previous: Option<Quote>, ticks: seq<MarketTick>)
    decreases |ticks|
  {
    ticks != [] ==>
      && (o.remaining > 0 ==> RefreshedQueue(o.request, o.queueAhead, ticks[0]) == o.queueAhead)
      && DepthNeverShrinksQueue(AfterTick(o, ticks[0], previous), Some(QuoteOf(ticks[0])), ticks[1..])
  }

  ghost predicate Resting(o: PendingOrder) {
    o.activated && o.queueAhead >= 0 && o.remaining >= 0
  }

  lemma AfterTickKeepsQueue(o: PendingOrder, tick: MarketTick, previous: Option<Quote>)
    requires Resting(o)
    ensures var after := AfterTick(o, tick, previous);
      Resting(after) && after.queueAhead <= o.queueAhead && after.request == o.request
      && after.remaining + after.filled == o.remaining + o.filled
  {
    hide CanFillImmediately, InferTradeFlow, BestBid, BestAsk, SamePrice;
  }

  /** The queue ahead never grows and never turns negative, crossing ticks or not, and lots are conserved. */
  lemma {:induction false} QueueNeverGrows(o: PendingOrder, previous: Option<Quote>, ticks: seq<MarketTick>)
    requires Resting(o)
    ensures var after := AfterTicks(o, previous, ticks);
      && 0 <= after.queueAhead <= o.queueAhead
      && 0 <= after.remaining <= o.remaining
      && after.remaining + after.filled == o.remaining + o.filled
    decreases |ticks|
  {
    hide RestingFill;
    if ticks != [] {
      AfterTickKeepsQueue(o, ticks[0], previous);
      QueueNeverGrows(AfterTick(o, ticks[0], previous), Some(QuoteOf(ticks[0])), ticks[1..]);
    }
  }

  /** One non-crossing tick that trades `traded` at the limit. */
  lemma AfterQuietTick(o: PendingOrder, tick: MarketTick, previous: Option<Quote>)
    requires Resting(o) && NeverCross(o.request, previous, [tick])
    ensures var traded := TradedAtLimit(o.request, previous, tick);
      var after := AfterTick(o, tick, previous);
      var queue := if o.remaining > 0 then RefreshedQueue(o.request, o.queueAhead, tick) else 0;
      && after.filled == o.filled + Min(o.remaining, Max(0, traded - queue))
      && (o.remaining > 0 ==> after.queueAhead == Max(0, queue - traded))
  {
    hide CanFillImmediately, InferTradeFlow, BestBid, BestAsk, SamePrice;
  }

  /** Queue position in closed form. On ticks that never cross the order, with T the volume traded at its limit, q the
      queue ahead and V the lots left, the fill lies between min(V, max(0, T - q)) and min(V, T), and is the former when
      displayed depth never shrinks the queue. */
  lemma {:induction false} QueuePositionClosedForm(o: PendingOrder, previous: Option<Quote>, ticks: seq<MarketTick>)
    requires Resting(o) && NeverCross(o.request, previous, ticks)
    ensures var traded := TradedAtLimitOver(o.request, previous, ticks);
      var filled := AfterTicks(o, previous, ticks).filled - o.filled;
      && traded >= 0
      && Min(o.remaining, Max(0, traded - o.queueAhead)) <= filled <= Min(o.remaining, traded)
      && (DepthNeverShrinksQueue(o, previous, ticks)
          ==> filled == Min(o.remaining, Max(0, traded - o.queueAhead)))
    decreases |ticks|
  {
    hide RestingFill, CanFillImmediately, RefreshedQueue, InferTradeFlow, AfterTick, TradedAtLimit, AwaitsActivation;
    if ticks != [] {
      var after, next := AfterTick(o, ticks[0], previous), Some(QuoteOf(ticks[0]));
      assert NeverCross(o.request, previous, [ticks[0]]);
      AfterTickKeepsQueue(o, ticks[0], previous);
      AfterQuietTick(o, ticks[0], previous);
      RefreshShrinks(o, ticks[0]);
      QueuePositionClosedForm(after, next, ticks[1..]);
      if o.remaining > 0 {
        QueueArithmetic(o.remaining, o.queueAhead, RefreshedQueue(o.request, o.queueAhead, ticks[0]),
                        TradedAtLimit(o.request, previous, ticks[0]),
                        TradedAtLimitOver(o.request, next, ticks[1..]),
                        AfterTicks(after, next, ticks[1..]).filled - after.filled);
      }
    }
  }

  /** So an order that joins behind the displayed size of its own touch, and whose queue is never seen shrinking, fills as
      much as trades at its price beyond that size. */
  lemma JoinedOrderFills(o: PendingOrder, at: MarketTick, previous: Option<Quote>, ticks: seq<MarketTick>)
    requires o.activated && o.remaining >= 0 && o.queueAhead == VisibleQueue(o.request, at)
    requires o.request.priceType.Limit? && NeverCross(o.request, previous, ticks)
    requires o.request.limitPrice == if o.request.side.Buy? then Quoted(at.bid, at.last) else Quoted(at.ask, at.last)
    requires DepthNeverShrinksQueue(o, previous, ticks)
    ensures var displayed := if o.request.side.Buy? then at.bidSize else at.askSize;
      AfterTicks(o, previous, ticks).filled - o.filled
      == Min(o.remaining, Max(0, TradedAtLimitOver(o.request, previous, ticks) - Max(0, displayed)))
  {
    hide VisibleQueue, AfterTicks, TradedAtLimitOver, NeverCross, DepthNeverShrinksQueue;
    JoinsItsOwnSide(o.request, at);
    QueuePositionClosedForm(o, previous, ticks);
  }

  /** The first tick trades `t`, the rest `u`; the queue is `q`, seen as `seen`, and the rest fills `f`. */
  lemma QueueArithmetic(v: int, q: int, seen: int, t: int, u: int, f: int)
    requires v > 0 && 0 <= seen <= q && t >= 0 && u >= 0
    requires var left := v - Min(v, Max(0, t - seen));
      Min(left, Max(0, u - Max(0, seen - t))) <= f <= Min(left, u)
    ensures var first := Min(v, Max(0, t - seen));
      && Min(v, Max(0, t + u - q)) <= first + f <= Min(v, t + u)
      && (seen == q && f == Min(v - first, Max(0, u - Max(0, seen - t)))
          ==> first + f == Min(v, Max(0, t + u - q)))
  {
  }

  lemma RefreshShrinks(o: PendingOrder, tick: MarketTick)
    requires o.queueAhead >= 0
    ensures 0 <= RefreshedQueue(o.request, o.queueAhead, tick) <= o.queueAhead
  {
  }
}
