/** What traded, and at which prices, between two consecutive ticks: the inference behind native matching. */
module TradeFlow {
  import opened Numeric
  import opened Domain

  const PRICE_SCALE := 10000.0
  const PRICE_EPSILON := 0.000000001

  /** The part of a tick that the matcher remembers (`PreviousBacktestTick`). */
  datatype Quote = Quote(last: real, bid: real, ask: real, volume: int, turnover: real, bidSize: int, askSize: int)

  function QuoteOf(tick: MarketTick): Quote {
    Quote(tick.last, tick.bid, tick.ask, tick.volume, tick.turnover, tick.bidSize, tick.askSize)
  }

  /** A side of the book as quoted, with the last trade standing in for a missing price. */
  function Quoted(price: real, last: real): real {
    if price > 0.0 then price else last
  }

  function BestBid(q: Quote): real {
    if q.bid > 0.0 then q.bid else q.last
  }

  function BestAsk(q: Quote): real {
    if q.ask > 0.0 then q.ask else q.last
  }

  function PriceKey(price: real): int {
    Round(price * PRICE_SCALE)
  }

  predicate SamePrice(a: real, b: real) {
    AbsReal(a - b) <= PRICE_EPSILON
  }

  function LastTradeReference(q: Quote): real {
    var bid, ask := BestBid(q), BestAsk(q);
    if q.last > 0.0 then q.last
    else if bid > 0.0 && ask > 0.0 then (bid + ask) / 2.0
    else if ask > 0.0 then ask
    else bid
  }

  type Histogram = map<int, int>

  function VolumeAt(h: Histogram, key: int): int {
    if key in h then h[key] else 0
  }

  ghost predicate NonNegative(h: Histogram) {
    forall key :: key in h ==> h[key] >= 0
  }

  /** A histogram under construction, with the volume that still has no price. */
  datatype Allocation = Allocation(byPrice: Histogram, remaining: int)

  /** `allocate_traded_volume_at_price`. */
  function Allocate(a: Allocation, price: real, requested: int): Allocation {
    if price <= 0.0 || a.remaining <= 0 || requested <= 0 then a
    else
      var volume := Min(a.remaining, requested);
      var key := PriceKey(price);
      Allocation(a.byPrice[key := VolumeAt(a.byPrice, key) + volume], a.remaining - volume)
  }

  /** Volume lost from the ask queue: the whole queue when the ask rose, the visible shrinkage when it held. */
  function AllocateAskSide(a: Allocation, previous: Quote, now: Quote): Allocation {
    if previous.askSize <= 0 || BestAsk(previous) <= 0.0 then a
    else if BestAsk(now) > BestAsk(previous) then Allocate(a, BestAsk(previous), previous.askSize)
    else if SamePrice(BestAsk(now), BestAsk(previous)) && now.askSize < previous.askSize then
      Allocate(a, BestAsk(now), previous.askSize - now.askSize)
    else a
  }

  function AllocateBidSide(a: Allocation, previous: Quote, now: Quote): Allocation {
    if previous.bidSize <= 0 || BestBid(previous) <= 0.0 then a
    else if BestBid(now) < BestBid(previous) then Allocate(a, BestBid(previous), previous.bidSize)
    else if SamePrice(BestBid(now), BestBid(previous)) && now.bidSize < previous.bidSize then
      Allocate(a, BestBid(now), previous.bidSize - now.bidSize)
    else a
  }

  datatype TradeFlow = TradeFlow(tradedVolume: int, vwap: real, byPrice: Histogram)

  function DeltaVolume(previous: Option<Quote>, now: Quote): (v: int)
    ensures v >= 0
  {
    if previous.None? then 0 else Max(0, now.volume - previous.value.volume)
  }

  function AverageTradePrice(previous: Quote, now: Quote, volume: int): real
    requires volume > 0
  {
    if now.turnover > 0.0 && previous.turnover > 0.0 && now.turnover > previous.turnover
    then (now.turnover - previous.turnover) / volume as real
    else LastTradeReference(now)
  }

  /** What the two sides of the book account for. */
  function FromBook(previous: Quote, now: Quote, volume: int): Allocation {
    AllocateBidSide(AllocateAskSide(Allocation(map[], volume), previous, now), previous, now)
  }

  /** The price that takes whatever the book leaves over. */
  function RepresentativePrice(previous: Quote, now: Quote, volume: int): real
    requires volume > 0
  {
    var vwap := AverageTradePrice(previous, now, volume);
    if vwap > 0.0 then vwap else LastTradeReference(now)
  }

  function InferTradeFlow(previous: Option<Quote>, now: Quote): TradeFlow {
    var volume := DeltaVolume(previous, now);
    if volume <= 0 then TradeFlow(0, LastTradeReference(now), map[])
    else
      var book := FromBook(previous.value, now, volume);
      var rest := Allocate(book, RepresentativePrice(previous.value, now, volume), book.remaining);
      TradeFlow(volume, AverageTradePrice(previous.value, now, volume), rest.byPrice)
  }

  function TradedAt(flow: TradeFlow, price: real): int {
    VolumeAt(flow.byPrice, PriceKey(price))
  }

  /** One allocation moves volume from the remainder into the histogram. */
  ghost predicate Accounts(a: Allocation, volume: int) {
    NonNegative(a.byPrice) && a.remaining >= 0 && Total(a.byPrice) + a.remaining == volume
  }

  lemma AllocateAccounts(a: Allocation, price: real, requested: int, volume: int)
    requires Accounts(a, volume)
    ensures Accounts(Allocate(a, price, requested), volume)
  {
    var key := PriceKey(price);
    TotalUpdate(a.byPrice, key, VolumeAt(a.byPrice, key) + Min(a.remaining, requested));
  }

  lemma FromBookAccounts(previous: Quote, now: Quote, volume: int)
    requires volume >= 0
    ensures Accounts(FromBook(previous, now, volume), volume)
  {
    hide Allocate, BestAsk, BestBid;
    var start := Allocation(map[], volume);
    AllocateAccounts(start, BestAsk(previous), previous.askSize, volume);
    AllocateAccounts(start, BestAsk(now), previous.askSize - now.askSize, volume);
    var asks := AllocateAskSide(start, previous, now);
    AllocateAccounts(asks, BestBid(previous), previous.bidSize, volume);
    AllocateAccounts(asks, BestBid(now), previous.bidSize - now.bidSize, volume);
  }

  /** Lots that left the ask queue: all of it when the ask rose, the shrinkage when it held at a price. */
  function AskLotsLost(previous: Quote, now: Quote): nat {
    if previous.askSize <= 0 || BestAsk(previous) <= 0.0 then 0
    else if BestAsk(now) > BestAsk(previous) then previous.askSize
    else if SamePrice(BestAsk(now), BestAsk(previous)) && BestAsk(now) > 0.0 then Max(0, previous.askSize - now.askSize)
    else 0
  }

  function BidLotsLost(previous: Quote, now: Quote): nat {
    if previous.bidSize <= 0 || BestBid(previous) <= 0.0 then 0
    else if BestBid(now) < BestBid(previous) then previous.bidSize
    else if SamePrice(BestBid(now), BestBid(previous)) && BestBid(now) > 0.0 then Max(0, previous.bidSize - now.bidSize)
    else 0
  }

  predicate HasPrice(q: Quote) {
    q.last > 0.0 || q.bid > 0.0 || q.ask > 0.0
  }

  predicate TurnoverRose(previous: Quote, now: Quote) {
    now.turnover > previous.turnover > 0.0
  }

  /** The two queues lost the whole volume, or the ticks name a positive price to put the rest at. */
  predicate Priceable(previous: Quote, now: Quote, volume: int) {
    || volume <= AskLotsLost(previous, now) + BidLotsLost(previous, now)
    || TurnoverRose(previous, now) || HasPrice(now)
  }

  lemma QueuesTakeWhatTheyLost(previous: Quote, now: Quote, volume: int)
    requires volume >= 0
    ensures FromBook(previous, now, volume).remaining
         == Max(0, volume - AskLotsLost(previous, now) - BidLotsLost(previous, now))
  {
    hide PriceKey, VolumeAt, SamePrice, BestAsk, BestBid;
    var asks := AllocateAskSide(Allocation(map[], volume), previous, now);
    assert asks.remaining == Max(0, volume - AskLotsLost(previous, now));
  }

  lemma RepresentativeIsPositive(previous: Quote, now: Quote, volume: int)
    requires volume > 0
    ensures RepresentativePrice(previous, now, volume) > 0.0 <==> TurnoverRose(previous, now) || HasPrice(now)
  {
    if TurnoverRose(previous, now) {
      assert (now.turnover - previous.turnover) / volume as real > 0.0;
    }
  }

  /** The histogram is non-negative, never exceeds the volume that traded, and accounts for all of it exactly when that
      volume is priceable. */
  lemma FlowConservesVolume(previous: Quote, now: Quote)
    ensures var flow := InferTradeFlow(Some(previous), now);
      && NonNegative(flow.byPrice)
      && flow.tradedVolume == Max(0, now.volume - previous.volume)
      && Total(flow.byPrice) <= flow.tradedVolume
      && (Total(flow.byPrice) == flow.tradedVolume <==> Priceable(previous, now, flow.tradedVolume))
  {
    hide AskLotsLost, BidLotsLost, HasPrice, TurnoverRose, RepresentativePrice, FromBook;
    var volume := DeltaVolume(Some(previous), now);
    if volume > 0 {
      FromBookAccounts(previous, now, volume);
      QueuesTakeWhatTheyLost(previous, now, volume);
      RepresentativeIsPositive(previous, now, volume);
      var book := FromBook(previous, now, volume);
      AllocateAccounts(book, RepresentativePrice(previous, now, volume), book.remaining, volume);
    }
  }

  lemma AllocateGrows(a: Allocation, price: real, requested: int, key: int)
    requires a.remaining >= 0
    ensures VolumeAt(Allocate(a, price, requested).byPrice, key) >= VolumeAt(a.byPrice, key)
  {
  }

  lemma SweptAsks(previous: Quote, now: Quote, volume: int)
    requires BestAsk(now) > BestAsk(previous) > 0.0 && previous.askSize > 0 && volume > 0
    ensures var asks := AllocateAskSide(Allocation(map[], volume), previous, now);
      VolumeAt(asks.byPrice, PriceKey(BestAsk(previous))) >= Min(volume, previous.askSize) && asks.remaining >= 0
  {
    hide BestAsk, PriceKey;
  }

  lemma BidSideGrows(a: Allocation, previous: Quote, now: Quote, key: int)
    requires a.remaining >= 0
    ensures VolumeAt(AllocateBidSide(a, previous, now).byPrice, key) >= VolumeAt(a.byPrice, key)
  {
    hide BestBid, SamePrice, Allocate, VolumeAt;
    AllocateGrows(a, BestBid(previous), previous.bidSize, key);
    AllocateGrows(a, BestBid(now), previous.bidSize - now.bidSize, key);
  }

  /** A touch that moved away was traded through: its whole queue, as far as the volume goes, is booked at its price. */
  lemma SweptQueueIsBooked(previous: Quote, now: Quote)
    requires BestAsk(now) > BestAsk(previous) > 0.0 && previous.askSize > 0 && now.volume > previous.volume
    ensures TradedAt(InferTradeFlow(Some(previous), now), BestAsk(previous))
         >= Min(now.volume - previous.volume, previous.askSize)
  {
    hide BestAsk, BestBid, PriceKey, Allocate, AllocateAskSide, AllocateBidSide, RepresentativePrice, VolumeAt;
    var volume, key := now.volume - previous.volume, PriceKey(BestAsk(previous));
    SweptAsks(previous, now, volume);
    BidSideGrows(AllocateAskSide(Allocation(map[], volume), previous, now), previous, now, key);
    FromBookAccounts(previous, now, volume);
    var book := FromBook(previous, now, volume);
    AllocateGrows(book, RepresentativePrice(previous, now, volume), book.remaining, key);
  }

  // ---- The histogram in closed form ----

  /** Lots booked at a price, as seen from one key. */
  function BookedAt(price: real, lots: int, key: int): int {
    if PriceKey(price) == key then lots else 0
  }

  lemma AllocatedAt(a: Allocation, price: real, requested: int, key: int)
    requires price > 0.0 && a.remaining >= 0
    ensures VolumeAt(Allocate(a, price, requested).byPrice, key)
         == VolumeAt(a.byPrice, key) + BookedAt(price, Min(a.remaining, Max(0, requested)), key)
  {
    hide PriceKey;
  }

  lemma NothingAllocated(a: Allocation, price: real, requested: int)
    requires price <= 0.0 || requested <= 0
    ensures Allocate(a, price, requested) == a
  {
  }

  /** Where the lots that left a queue traded: at its old price if the touch moved through it, else where it stands. */
  function AskPrice(previous: Quote, now: Quote): real {
    if BestAsk(now) > BestAsk(previous) then BestAsk(previous) else BestAsk(now)
  }

  function BidPrice(previous: Quote, now: Quote): real {
    if BestBid(now) < BestBid(previous) then BestBid(previous) else BestBid(now)
  }

  lemma AskSideAt(a: Allocation, previous: Quote, now: Quote, key: int)
    requires a.remaining >= 0
    ensures VolumeAt(AllocateAskSide(a, previous, now).byPrice, key)
         == VolumeAt(a.byPrice, key) + BookedAt(AskPrice(previous, now), Min(a.remaining, AskLotsLost(previous, now)), key)
    ensures AllocateAskSide(a, previous, now).remaining == a.remaining - Min(a.remaining, AskLotsLost(previous, now))
  {
    hide PriceKey, BestAsk, SamePrice, VolumeAt;
    if AskLotsLost(previous, now) > 0 {
      AllocatedAt(a, AskPrice(previous, now), AskLotsLost(previous, now), key);
    }
  }

  lemma BidSideAt(a: Allocation, previous: Quote, now: Quote, key: int)
    requires a.remaining >= 0
    ensures VolumeAt(AllocateBidSide(a, previous, now).byPrice, key)
         == VolumeAt(a.byPrice, key) + BookedAt(BidPrice(previous, now), Min(a.remaining, BidLotsLost(previous, now)), key)
    ensures AllocateBidSide(a, previous, now).remaining == a.remaining - Min(a.remaining, BidLotsLost(previous, now))
  {
    hide PriceKey, BestBid, SamePrice, VolumeAt;
    if BidLotsLost(previous, now) > 0 {
      AllocatedAt(a, BidPrice(previous, now), BidLotsLost(previous, now), key);
    }
  }

  /** Key by key: first the lots that left the ask queue, then those that left the bid queue, as far as the volume goes, each
      where its queue stood, and the rest at the representative price if that is positive. */
  lemma NativeFlowAt(previous: Quote, now: Quote, key: int)
    requires now.volume > previous.volume
    ensures var volume := now.volume - previous.volume;
      var asks := Min(volume, AskLotsLost(previous, now));
      var bids := Min(volume - asks, BidLotsLost(previous, now));
      var price := RepresentativePrice(previous, now, volume);
      VolumeAt(InferTradeFlow(Some(previous), now).byPrice, key)
      == BookedAt(AskPrice(previous, now), asks, key) + BookedAt(BidPrice(previous, now), bids, key)
         + BookedAt(price, if price > 0.0 then volume - asks - bids else 0, key)
  {
    hide PriceKey, AskLotsLost, BidLotsLost, AskPrice, BidPrice, AllocateAskSide, AllocateBidSide, RepresentativePrice,
      VolumeAt;
    var volume := now.volume - previous.volume;
    var start := Allocation(map[], volume);
    var book, price := FromBook(previous, now, volume), RepresentativePrice(previous, now, volume);
    AskSideAt(start, previous, now, key);
    BidSideAt(AllocateAskSide(start, previous, now), previous, now, key);
    EmptyAt(key);
    if price > 0.0 {
      AllocatedAt(book, price, book.remaining, key);
    } else {
      NothingAllocated(book, price, book.remaining);
    }
  }

  lemma EmptyAt(key: int)
    ensures VolumeAt(map[], key) == 0
  {
  }

  /** The average price is the rise of the turnover per lot; without a rise it is the reference price of the last trade. */
  lemma AverageExplainsTurnover(previous: Quote, now: Quote)
    requires now.volume > previous.volume
    ensures var flow := InferTradeFlow(Some(previous), now);
      && flow.tradedVolume == now.volume - previous.volume
      && (if TurnoverRose(previous, now) then flow.vwap * flow.tradedVolume as real == now.turnover - previous.turnover
          else flow.vwap == LastTradeReference(now))
  {
    hide LastTradeReference, Allocate;
  }

  /** The reference is the last trade's price, and without one it lies between the two sides of the book. */
  lemma ReferenceIsQuoted(q: Quote)
    ensures q.last > 0.0 ==> LastTradeReference(q) == q.last
    ensures q.last <= 0.0 && q.bid > 0.0 && q.ask > 0.0 ==>
      LastTradeReference(q) - q.bid == q.ask - LastTradeReference(q)
    ensures q.last <= 0.0 && q.bid <= 0.0 && q.ask > 0.0 ==> LastTradeReference(q) == q.ask
    ensures q.last <= 0.0 && q.bid > 0.0 && q.ask <= 0.0 ==> LastTradeReference(q) == q.bid
  {
  }

  /** Keys tell prices apart that differ by a ten-thousandth. */
  lemma KeyOfUnit(n: int)
    ensures PriceKey(n as real / 10000.0) == n
  {
  }
}
