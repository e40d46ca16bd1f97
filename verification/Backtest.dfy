/** The simulated exchange: the order book of a strategy attachment, and the account that owns the attachments. */
module Backtest {
  import opened Numeric
  import opened Text
  import opened Domain
  import opened Ledger
  import opened TradeFlow
  import opened Matcher

  /** A tick and the quote that preceded it on its instrument. */
  datatype Market = Market(tick: MarketTick, previous: Option<Quote>)

  /** `SimAttachmentState`, and beside it `unbooked`: the profit that closes of lots without a cost have failed to book. */
  datatype Attachment = Attachment(
    positions: map<string, Position>, scheduled: seq<PendingOrder>, pending: seq<PendingOrder>,
    openOrders: map<string, OrderSnapshot>, closedOrders: seq<OrderSnapshot>, closedCount: nat, tradeCount: nat,
    filledVolume: int, filledOpenVolume: int, pnl: real, unbooked: real, costs: CostModel)

  /** `SimAccountState`; `roster` lists the attachments in map order. */
  datatype Account = Account(
    id: string, initialCash: real, realized: real, cash: real, netPositions: map<string, int>,
    roster: seq<string>, attachments: map<string, Attachment>, nextOrderId: nat)

  function OrderId(account: string, number: nat): string {
    account + "-" + Decimal(number)
  }

  function MakeEvent(r: OrderRequest, orderId: string, status: OrderStatus, filled: int, price: real, timestamp: string)
    : OrderEvent
  {
    OrderEvent(orderId, "", if r.clientOrderId == "" then orderId else r.clientOrderId, r.accountId, r.strategyId,
               r.instrument, r.exchange, r.side, r.offset, r.volume, filled, r.limitPrice, price, 0, status, timestamp)
  }

  function SnapshotOf(o: PendingOrder): OrderSnapshot {
    var status :=
      if o.filled > 0 then PartiallyFilled else if o.request.activateAtMs > 0 then Submitted else Accepted;
    MakeEvent(o.request, o.orderId, status, o.filled, 0.0, "")
  }

  function PositionOf(a: Attachment, instrument: string): Position {
    if instrument in a.positions then a.positions[instrument] else FLAT
  }

  /** Looking a position up creates it. */
  function Touch(a: Attachment, instrument: string): Attachment {
    a.(positions := a.positions[instrument := PositionOf(a, instrument)])
  }

  /** A fill changes the position, the profit and the volume counters together. */
  function BookFill(a: Attachment, r: OrderRequest, price: real, quantity: int): Attachment {
    var p := PositionOf(a, r.instrument);
    var fill := FillOf(p, r, price, quantity, a.costs);
    a.(positions := a.positions[r.instrument := fill.position],
       pnl := a.pnl + fill.realized,
       unbooked := a.unbooked + Unbooked(p, r, price, quantity),
       filledVolume := a.filledVolume + Max(0, quantity),
       filledOpenVolume := a.filledOpenVolume + if r.offset.Open? then Max(0, quantity) else 0)
  }

  /** `record_backtest_closed_order`, with the order gone from the open ones. */
  function CloseOrder(a: Attachment, event: OrderEvent): Attachment {
    a.(openOrders := a.openOrders - {event.orderId},
       closedOrders := a.closedOrders + [event],
       closedCount := a.closedCount + 1,
       tradeCount := a.tradeCount + if event.filledVolume > 0 then 1 else 0)
  }

  datatype Outcome = Outcome(attachment: Attachment, events: seq<OrderEvent>)

  // ---- Submission ----

  /** What becomes of a submitted order. */
  datatype Fate =
    | Refused
    | FilledAt(price: real)
    | Scheduled(order: PendingOrder)
    | Rests(order: PendingOrder)

  function FateOf(a: Attachment, r: OrderRequest, orderId: string, m: Market): Fate {
    if !CloseRequestIsValid(PositionOf(a, r.instrument), r) then Refused
    else if r.forceFill && r.activateAtMs > 0 then
      var order := PendingOrder(r, orderId, r.volume, 0, 0, false, true);
      if r.activateAtMs > m.tick.timestampMs then Scheduled(order)
      else
        var match_ := SyntheticRestingFill(order, m.tick, m.previous, a.costs);
        if match_.volume > 0 then FilledAt(match_.price) else Rests(match_.order)
    else if r.forceFill then
      var price := if r.forceFillPrice > 0.0 then r.forceFillPrice
                   else if r.priceType.Limit? then r.limitPrice
                   else if r.side.Buy? then BestAsk(QuoteOf(m.tick)) else BestBid(QuoteOf(m.tick));
      if price <= 0.0 then Refused else FilledAt(price)
    else if CanFillImmediately(r, m.tick, InferTradeFlow(m.previous, QuoteOf(m.tick))) then
      FilledAt(FillPrice(r, m.tick, m.previous))
    else
      Rests(PendingOrder(r, orderId, r.volume, 0, VisibleQueue(r, m.tick), true, false))
  }

  function Settle(a: Attachment, r: OrderRequest, orderId: string, fate: Fate, timestamp: string): Outcome {
    match fate
    case Refused =>
      var event := MakeEvent(r, orderId, Rejected, 0, 0.0, timestamp);
      Outcome(CloseOrder(a, event), [event])
    case FilledAt(price) =>
      var event := MakeEvent(r, orderId, Filled, r.volume, price, timestamp);
      Outcome(CloseOrder(BookFill(a, r, price, r.volume), event), [event])
    case Scheduled(order) =>
      Outcome(a.(scheduled := a.scheduled + [order], openOrders := a.openOrders[orderId := SnapshotOf(order)]),
              [MakeEvent(r, orderId, Accepted, 0, 0.0, timestamp)])
    case Rests(order) =>
      Outcome(a.(pending := a.pending + [order], openOrders := a.openOrders[orderId := SnapshotOf(order)]),
              [MakeEvent(r, orderId, Accepted, 0, 0.0, timestamp)])
  }

  function SubmitTo(a: Attachment, r: OrderRequest, orderId: string, m: Market): Outcome {
    var submitted := MakeEvent(r, orderId, Submitted, 0, 0.0, m.tick.timestamp);
    var settled := Settle(Touch(a, r.instrument), r, orderId, FateOf(a, r, orderId, m), m.tick.timestamp);
    settled.(events := [submitted] + settled.events)
  }

  /** Lots do get opened at price zero: an opening sell with limit zero fills at zero on an instrument's first tick. */
  lemma ZeroLimitOpenFills(a: Attachment, r: OrderRequest, orderId: string, m: Market)
    requires r.offset.Open? && r.side.Sell? && r.priceType.Limit? && r.limitPrice == 0.0 && !r.forceFill
    requires r.instrument == m.tick.instrument && m.previous.None? && BestBid(QuoteOf(m.tick)) >= 0.0
    ensures FateOf(a, r, orderId, m) == FilledAt(0.0)
  {
  }

  /** Buying them back at any other price then leaves all that it costs unbooked. */
  lemma ZeroLimitCloseIsUnbooked(a: Attachment, r: OrderRequest, orderId: string, m: Market,
                                 close: OrderRequest, closeId: string, later: Market, price: real)
    requires r.offset.Open? && r.side.Sell? && r.priceType.Limit? && r.limitPrice == 0.0 && !r.forceFill && r.volume > 0
    requires r.instrument == m.tick.instrument && m.previous.None? && BestBid(QuoteOf(m.tick)) >= 0.0
    requires PositionOf(a, r.instrument) == FLAT
    requires close.side.Buy? && close.offset.CloseToday? && close.instrument == r.instrument && close.volume == r.volume
    requires FateOf(SubmitTo(a, r, orderId, m).attachment, close, closeId, later) == FilledAt(price)
    ensures var closed := SubmitTo(SubmitTo(a, r, orderId, m).attachment, close, closeId, later).attachment;
      closed.unbooked == a.unbooked - Notional(r.volume, price)
  {
    hide FateOf, FillOf, Unbooked, Notional;
    ZeroLimitOpenFills(a, r, orderId, m);
    ZeroCostRealizesNothing(r, close, r.volume, price);
    SameUpToCosts(FLAT, r, 0.0, r.volume, a.costs);
    NothingOpenedUnbooked(FLAT, r, 0.0, r.volume);
    NotionalDifference(0, r.volume, price);
    NotionalSign(0, price);
  }

  /** Costs matter to profit, not to the position. */
  lemma SameUpToCosts(p: Position, r: OrderRequest, price: real, quantity: int, costs: CostModel)
    ensures FillOf(p, r, price, quantity, costs).position == FillOf(p, r, price, quantity, DEFAULT_COSTS).position
  {
  }

  lemma NothingOpenedUnbooked(p: Position, r: OrderRequest, price: real, quantity: int)
    requires r.offset.Open?
    ensures Unbooked(p, r, price, quantity) == 0.0
  {
  }

  // ---- Service of pending orders ----

  datatype Serviced = Serviced(attachment: Attachment, kept: seq<PendingOrder>, events: seq<OrderEvent>)

  function MatchOf(a: Attachment, o: PendingOrder, m: Market): (p: PricedMatch)
    ensures p.order == o.(queueAhead := p.order.queueAhead, activated := p.order.activated)
    ensures 0 <= p.volume && (p.volume > 0 ==> p.volume <= o.remaining)
  {
    if o.synthetic then SyntheticRestingFill(o, m.tick, m.previous, a.costs)
    else
      var native := RestingFill(o, m.tick, m.previous);
      PricedMatch(native.order, native.volume, FillPrice(o.request, m.tick, m.previous))
  }

  function ServiceMatch(a: Attachment, p: PricedMatch, timestamp: string): Serviced {
    var o, r := p.order, p.order.request;
    if p.volume <= 0 then Serviced(a, [o], [])
    else if !CloseRequestIsValid(PositionOf(a, r.instrument), r.(volume := o.remaining)) then
      var event := MakeEvent(r, o.orderId, Rejected, 0, 0.0, timestamp);
      Serviced(CloseOrder(Touch(a, r.instrument), event), [], [event])
    else
      var filled := o.(remaining := o.remaining - p.volume, filled := o.filled + p.volume);
      var status := if filled.remaining == 0 then Filled else PartiallyFilled;
      var event := MakeEvent(r, o.orderId, status, p.volume, p.price, timestamp);
      var booked := BookFill(a, r, p.price, p.volume);
      if filled.remaining == 0 then Serviced(CloseOrder(booked, event), [], [event])
      else
        var snapshot := SnapshotOf(filled).(filledPrice := p.price, timestamp := timestamp);
        Serviced(booked.(openOrders := booked.openOrders[o.orderId := snapshot]), [filled], [event])
  }

  function ServiceOrder(a: Attachment, o: PendingOrder, m: Market): Serviced {
    ServiceMatch(a, MatchOf(a, o, m), m.tick.timestamp)
  }

  function ServiceOrders(a: Attachment, orders: seq<PendingOrder>, m: Market): Serviced {
    if orders == [] then Serviced(a, [], [])
    else
      var before := ServiceOrders(a, orders[..|orders| - 1], m);
      var last := ServiceOrder(before.attachment, orders[|orders| - 1], m);
      Serviced(last.attachment, before.kept + last.kept, before.events + last.events)
  }

  function ServiceAttachment(a: Attachment, m: Market): Outcome {
    var s := ServiceOrders(a, a.pending, m);
    Outcome(s.attachment.(pending := s.kept), s.events)
  }

  // ---- Activation, cancellation, day roll ----

  predicate IsDue(o: PendingOrder, tick: MarketTick) {
    o.request.instrument == tick.instrument && 0 < o.request.activateAtMs <= tick.timestampMs
  }

  function StillScheduled(orders: seq<PendingOrder>, tick: MarketTick): seq<PendingOrder> {
    if orders == [] then []
    else
      var last := orders[|orders| - 1];
      StillScheduled(orders[..|orders| - 1], tick) + if IsDue(last, tick) then [] else [last]
  }

  function Due(orders: seq<PendingOrder>, tick: MarketTick): seq<PendingOrder> {
    if orders == [] then []
    else
      var last := orders[|orders| - 1];
      Due(orders[..|orders| - 1], tick)
      + if IsDue(last, tick) then [last.(request := last.request.(activateAtMs := 0))] else []
  }

  function ActivateIn(a: Attachment, tick: MarketTick): Attachment {
    a.(scheduled := StillScheduled(a.scheduled, tick), pending := a.pending + Due(a.scheduled, tick))
  }

  /** The first order with that client id. */
  function Find(orders: seq<PendingOrder>, clientOrderId: string): (i: nat)
    ensures i <= |orders|
    ensures i < |orders| ==> orders[i].request.clientOrderId == clientOrderId
    ensures forall j :: 0 <= j < i ==> orders[j].request.clientOrderId != clientOrderId
  {
    if orders == [] || orders[0].request.clientOrderId == clientOrderId then 0
    else 1 + Find(orders[1..], clientOrderId)
  }

  function Without(orders: seq<PendingOrder>, i: nat): seq<PendingOrder>
    requires i < |orders|
  {
    orders[..i] + orders[i + 1..]
  }

  function CancelEvent(o: PendingOrder, timestamp: string): OrderEvent {
    MakeEvent(o.request, o.orderId, Cancelled, 0, 0.0, timestamp).(sourceOrderId := o.orderId)
  }

  function CancelIn(a: Attachment, clientOrderId: string, timestamp: string): Outcome {
    var s, p := Find(a.scheduled, clientOrderId), Find(a.pending, clientOrderId);
    if s < |a.scheduled| then
      var event := CancelEvent(a.scheduled[s], timestamp);
      Outcome(CloseOrder(a, event).(scheduled := Without(a.scheduled, s)), [event])
    else if p < |a.pending| then
      var event := CancelEvent(a.pending[p], timestamp);
      Outcome(CloseOrder(a, event).(pending := Without(a.pending, p)), [event])
    else Outcome(a, [])
  }

  function RollAttachment(a: Attachment): Attachment {
    a.(positions := map i | i in a.positions :: Roll(a.positions[i]))
  }
}
