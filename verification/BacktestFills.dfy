/** What becomes of orders in a backtest: when they are refused, fill, wait or rest, and at what price they fill. */
module BacktestFills {
  import opened Numeric
  import opened Domain
  import opened Ledger
  import opened TradeFlow
  import opened SyntheticFlow
  import opened Matcher
  import opened Backtest
  import opened BacktestBooks
  import opened BacktestAccount
  import opened BacktestRuns

  // ---- Submission ----

  /** The position has the lots the order asks to close. */
  predicate Covered(p: Position, r: OrderRequest, lots: int) {
    r.offset.Open? || 0 < lots <= Closeable(p, r)
  }

  /** Forced to fill at once: at the price given, or else the limit, or else the opposite touch. */
  predicate ForcedPrice(r: OrderRequest, tick: MarketTick, price: real) {
    if r.forceFillPrice > 0.0 then price == r.forceFillPrice
    else if r.priceType.Limit? then price == r.limitPrice
    else price == if r.side.Buy? then Quoted(tick.ask, tick.last) else Quoted(tick.bid, tick.last)
  }

  /** The order is filled whole, at the price. */
  predicate FillsWhole(e: OrderEvent, r: OrderRequest, price: real) {
    e.status.Filled? && e.filledVolume == r.volume && e.filledPrice == price
  }

  predicate Turned(e: OrderEvent, status: OrderStatus) {
    e.status == status && e.filledVolume == 0 && e.filledPrice == 0.0
  }

  /** The order stays with the attachment as it came, in full. */
  predicate StaysWhole(o: PendingOrder, r: OrderRequest, orderId: string) {
    o.request == r && o.orderId == orderId && o.remaining == r.volume && o.filled == 0
  }

  /** The snapshot that the attachment shows of an open order. */
  predicate ShownOpen(open: map<string, OrderSnapshot>, r: OrderRequest, orderId: string, status: OrderStatus, filled: int) {
    orderId in open
    && var s := open[orderId];
       && s.orderId == orderId && s.status == status && s.requestedVolume == r.volume && s.filledVolume == filled
       && s.accountId == r.accountId && s.strategyId == r.strategyId && s.instrument == r.instrument
       && s.exchange == r.exchange && s.side == r.side && s.offset == r.offset && s.limitPrice == r.limitPrice
       && s.clientOrderId == if r.clientOrderId == "" then orderId else r.clientOrderId
  }

  /** An order without force: it fills at once at a fair price, or rests behind its side of the book. */
  lemma PlainSubmission(a: Attachment, r: OrderRequest, orderId: string, m: Market)
    requires Covered(PositionOf(a, r.instrument), r, r.volume) && !r.forceFill
    ensures var out := SubmitTo(a, r, orderId, m);
      if CanFillImmediately(r, m.tick, InferTradeFlow(m.previous, QuoteOf(m.tick))) then
        FairPrice(r, m.tick, m.previous, out.events[1].filledPrice)
        && FillsWhole(out.events[1], r, out.events[1].filledPrice)
      else
        && Turned(out.events[1], Accepted) && |out.attachment.pending| == |a.pending| + 1
        && out.attachment.pending[..|a.pending|] == a.pending
        && ShownOpen(out.attachment.openOrders, r, orderId, if r.activateAtMs > 0 then Submitted else Accepted, 0)
        && var o := out.attachment.pending[|a.pending|];
           StaysWhole(o, r, orderId) && o.activated && !o.synthetic && o.queueAhead == VisibleQueue(r, m.tick)
  {
    hide CanFillImmediately, InferTradeFlow, FillPrice, FairPrice, VisibleQueue, BookFill, Closeable;
    FillPriceIsFair(r, m.tick, m.previous, FillPrice(r, m.tick, m.previous));
  }

  /** An order forced without a time: filled at the price it is forced to, unless that is not positive. */
  lemma ForcedSubmission(a: Attachment, r: OrderRequest, orderId: string, m: Market, price: real)
    requires Covered(PositionOf(a, r.instrument), r, r.volume) && r.forceFill && r.activateAtMs <= 0
    requires ForcedPrice(r, m.tick, price)
    ensures var e := SubmitTo(a, r, orderId, m).events[1];
      if price > 0.0 then FillsWhole(e, r, price) else Turned(e, Rejected)
  {
    hide BookFill, SnapshotOf, Closeable;
  }

  /** An order forced from a time on: it waits until then, and after that is matched as a synthetic order. */
  lemma TimedSubmission(a: Attachment, r: OrderRequest, orderId: string, m: Market)
    requires Covered(PositionOf(a, r.instrument), r, r.volume) && r.forceFill && r.activateAtMs > 0
    ensures var out := SubmitTo(a, r, orderId, m); var e := out.events[1];
      if m.tick.timestampMs < r.activateAtMs then
        && Turned(e, Accepted) && |out.attachment.scheduled| == |a.scheduled| + 1
        && out.attachment.scheduled[..|a.scheduled|] == a.scheduled
        && ShownOpen(out.attachment.openOrders, r, orderId, Submitted, 0)
        && var o := out.attachment.scheduled[|a.scheduled|];
           StaysWhole(o, r, orderId) && !o.activated && o.synthetic && o.queueAhead == 0
      else
        || (m.previous.Some? && FillsWhole(e, r, e.filledPrice)
            && FairSyntheticPrice(r, m.tick, m.previous.value, e.filledPrice))
        || (Turned(e, Accepted) && |out.attachment.pending| == |a.pending| + 1
            && out.attachment.pending[..|a.pending|] == a.pending
            && ShownOpen(out.attachment.openOrders, r, orderId, Submitted, 0)
            && var o := out.attachment.pending[|a.pending|]; StaysWhole(o, r, orderId) && o.synthetic)
  {
    hide SyntheticRestingFill, FairSyntheticPrice, BookFill, Closeable;
    var order := PendingOrder(r, orderId, r.volume, 0, 0, false, true);
    if SyntheticRestingFill(order, m.tick, m.previous, a.costs).volume > 0 {
      SyntheticFillIsFair(order, m.tick, m.previous, a.costs);
    }
  }

  /** A close without the lots is refused, whatever else it asks for, and changes no position. */
  lemma UncoveredSubmission(a: Attachment, r: OrderRequest, orderId: string, m: Market)
    requires !Covered(PositionOf(a, r.instrument), r, r.volume)
    ensures var out := SubmitTo(a, r, orderId, m);
      && Turned(out.events[1], Rejected)
      && out.attachment.scheduled == a.scheduled && out.attachment.pending == a.pending
      && forall i :: PositionOf(out.attachment, i) == PositionOf(a, i)
  {
    hide FillPrice, CanFillImmediately, SyntheticRestingFill, BookFill, SnapshotOf, Closeable;
  }

  // ---- Service ----

  /** A fill in service: on a tick of the order's instrument, not before its time, and at a fair price. */
  predicate ServicePrice(o: PendingOrder, m: Market, price: real) {
    && o.request.instrument == m.tick.instrument
    && (m.tick.timestampMs > 0 ==> m.tick.timestampMs >= o.request.activateAtMs)
    && if o.synthetic then m.previous.Some? && FairSyntheticPrice(o.request, m.tick, m.previous.value, price)
       else FairPrice(o.request, m.tick, m.previous, price)
  }

  lemma MatchIsFair(a: Attachment, o: PendingOrder, m: Market)
    requires MatchOf(a, o, m).volume > 0
    ensures ServicePrice(o, m, MatchOf(a, o, m).price)
  {
    hide FairPrice, FairSyntheticPrice, FillPrice, RestingFill, SyntheticRestingFill;
    NativeWaitsForItsTime(o, m.tick, m.previous);
    if o.synthetic {
      SyntheticFillIsFair(o, m.tick, m.previous, a.costs);
    } else {
      FillPriceIsFair(o.request, m.tick, m.previous, FillPrice(o.request, m.tick, m.previous));
    }
  }

  /** A resting order that is matched fills what is matched at a fair price, and goes on with the rest if there is any; but a
      close that has lost its lots is rejected. An order that is not matched stays and emits nothing. */
  lemma ServiceDecides(a: Attachment, o: PendingOrder, m: Market)
    requires o.remaining > 0
    ensures var matched, s := MatchOf(a, o, m).volume, ServiceOrder(a, o, m);
      if matched == 0 then s.events == [] && s.attachment == a && |s.kept| == 1 && s.kept[0].remaining == o.remaining
      else if !Covered(PositionOf(a, o.request.instrument), o.request, o.remaining) then
        |s.events| == 1 && Turned(s.events[0], Rejected) && s.kept == []
        && forall i :: PositionOf(s.attachment, i) == PositionOf(a, i)
      else
        && |s.events| == 1 && s.events[0].orderId == o.orderId && s.events[0].filledVolume == matched
        && ServicePrice(o, m, s.events[0].filledPrice)
        && (if matched == o.remaining then s.events[0].status.Filled? && s.kept == []
            else s.events[0].status.PartiallyFilled? && |s.kept| == 1
                 && s.kept[0].remaining == o.remaining - matched && s.kept[0].filled == o.filled + matched
                 && (o.filled >= 0 ==>
                       ShownOpen(s.attachment.openOrders, o.request, o.orderId, PartiallyFilled, o.filled + matched)))
  {
    hide MatchOf, ServicePrice, BookFill;
    if MatchOf(a, o, m).volume > 0 {
      MatchIsFair(a, o, m);
      VolumeIsCosmetic(PositionOf(a, o.request.instrument), o.request, o.remaining);
    }
  }

  lemma VolumeIsCosmetic(p: Position, r: OrderRequest, lots: int)
    requires lots > 0
    ensures CloseRequestIsValid(p, r.(volume := lots)) <==> Covered(p, r, lots)
  {
    hide ClosesYesterdayByDefault;
  }

  /** Each execution a tick's service reports is of one of the pending orders, at a fair price for it. */
  ghost predicate Executed(orders: seq<PendingOrder>, m: Market, e: OrderEvent) {
    Traded(e) ==> exists o :: o in orders && o.orderId == e.orderId && e.filledVolume <= o.remaining
                              && o.request.instrument == e.instrument && ServicePrice(o, m, e.filledPrice)
  }

  lemma {:induction false} ServiceExecutes(a: Attachment, orders: seq<PendingOrder>, m: Market)
    ensures forall e :: e in ServiceOrders(a, orders, m).events ==> Executed(orders, m, e)
  {
    hide MatchOf, ServicePrice, BookFill, SnapshotOf, CloseRequestIsValid;
    if orders != [] {
      var front, o := orders[..|orders| - 1], orders[|orders| - 1];
      ServiceExecutes(a, front, m);
      var before := ServiceOrders(a, front, m);
      if MatchOf(before.attachment, o, m).volume > 0 {
        MatchIsFair(before.attachment, o, m);
      }
      forall e | e in ServiceOrders(a, orders, m).events ensures Executed(orders, m, e) {
        if e in before.events {
          StillExecuted(front, o, m, e);
        } else {
          assert e in ServiceOrder(before.attachment, o, m).events;
          assert o in orders;
        }
      }
    }
  }

  lemma StillExecuted(front: seq<PendingOrder>, o: PendingOrder, m: Market, e: OrderEvent)
    requires Executed(front, m, e)
    ensures forall orders :: orders == front + [o] ==> Executed(orders, m, e)
  {
    hide ServicePrice;
    forall orders | orders == front + [o] ensures Executed(orders, m, e) {
      assert forall x :: x in front ==> x in orders;
    }
  }

  /** Over a whole account: every execution of a tick's service is of an order pending with an attachment, at a fair price. */
  lemma ServiceIsFair(a: Account, m: Market)
    requires WellFormed(a)
    ensures forall e :: e in Service(a, m).events ==>
      exists n :: n in a.attachments && Executed(a.attachments[n].pending, m, e)
  {
    hide Executed, Refresh, ServiceOver;
    AllExecuted(a, a.roster, m);
    assert Service(a, m).events == ServiceOver(a, a.roster, m).events;
  }

  lemma {:induction false} AllExecuted(a: Account, names: seq<string>, m: Market)
    requires WellFormed(a) && Lists(a.attachments, names)
    requires forall i, j :: 0 <= i < j < |names| ==> names[i] != names[j]
    ensures var out := ServiceOver(a, names, m);
      && (forall n :: n in a.attachments && n !in names ==> out.account.attachments[n] == a.attachments[n])
      && forall e :: e in out.events ==> exists n :: n in a.attachments && Executed(a.attachments[n].pending, m, e)
  {
    hide Executed, ServiceOrders;
    if names != [] {
      var front, name := names[..|names| - 1], names[|names| - 1];
      AllExecuted(a, front, m);
      var before := ServiceOver(a, front, m);
      assert before.account.attachments[name] == a.attachments[name];
      ServiceExecutes(a.attachments[name], a.attachments[name].pending, m);
      var out := ServiceOver(a, names, m);
      forall e | e in out.events ensures exists n :: n in a.attachments && Executed(a.attachments[n].pending, m, e) {
        if e !in before.events {
          assert e in ServiceOrders(a.attachments[name], a.attachments[name].pending, m).events;
          assert name in a.attachments && Executed(a.attachments[name].pending, m, e);
        }
      }
    }
  }

  // ---- Activation ----

  /** The order's time has come on a tick of its instrument. */
  predicate TimeHasCome(o: PendingOrder, tick: MarketTick) {
    o.request.activateAtMs > 0 && o.request.instrument == tick.instrument && tick.timestampMs >= o.request.activateAtMs
  }

  predicate SameButForTime(o: PendingOrder, p: PendingOrder) {
    p == o.(request := o.request.(activateAtMs := 0))
  }

  /** After a tick no order whose time has come is still scheduled; those that waited no longer were due, and every scheduled
      order is still there, once, as it was or with its time cleared. */
  lemma {:induction false} ActivationParts(orders: seq<PendingOrder>, tick: MarketTick)
    ensures var still, due := StillScheduled(orders, tick), Due(orders, tick);
      && |still| + |due| == |orders|
      && (forall o :: o in still <==> o in orders && !TimeHasCome(o, tick))
      && (forall o :: o in due ==> exists p :: p in orders && TimeHasCome(p, tick) && SameButForTime(p, o))
      && (forall p :: p in orders && TimeHasCome(p, tick) ==> p.(request := p.request.(activateAtMs := 0)) in due)
  {
    if orders != [] {
      var front, last := orders[..|orders| - 1], orders[|orders| - 1];
      ActivationParts(front, tick);
      assert orders == front + [last];
      forall o | o in Due(orders, tick) ensures exists p :: p in orders && TimeHasCome(p, tick) && SameButForTime(p, o) {
        if o in Due(front, tick) {
          var p :| p in front && TimeHasCome(p, tick) && SameButForTime(p, o);
          assert p in orders;
        } else {
          assert last in orders && SameButForTime(last, o);
        }
      }
    }
  }

  // ---- Cancels ----

  predicate Bears(o: PendingOrder, clientOrderId: string) {
    o.request.clientOrderId == clientOrderId
  }

  /** Cancelling order k of the list: it is reported, and the others stay as they are. */
  predicate TakesOut(orders: seq<PendingOrder>, k: nat, left: seq<PendingOrder>, events: seq<OrderEvent>) {
    && k < |orders| && left == orders[..k] + orders[k + 1..]
    && |events| == 1 && Turned(events[0], Cancelled) && events[0].orderId == orders[k].orderId
  }

  /** No order before k has the client id, and order k has it unless the list ends there. */
  predicate FirstToBear(orders: seq<PendingOrder>, clientOrderId: string, k: nat) {
    && k <= |orders| && (k < |orders| ==> Bears(orders[k], clientOrderId))
    && forall j :: 0 <= j < k ==> !Bears(orders[j], clientOrderId)
  }

  /** A cancel takes the first scheduled order that has the client id, or else the first such pending order; without one it
      does nothing. No position changes. */
  lemma CancelTakesTheFirst(a: Attachment, clientOrderId: string, timestamp: string, s: nat, p: nat)
    requires FirstToBear(a.scheduled, clientOrderId, s) && FirstToBear(a.pending, clientOrderId, p)
    ensures var out := CancelIn(a, clientOrderId, timestamp);
      && out.attachment.positions == a.positions
      && (if s < |a.scheduled| then
            TakesOut(a.scheduled, s, out.attachment.scheduled, out.events) && out.attachment.pending == a.pending
          else if p < |a.pending| then
            TakesOut(a.pending, p, out.attachment.pending, out.events) && out.attachment.scheduled == a.scheduled
          else out == Outcome(a, []))
  {
    assert Find(a.scheduled, clientOrderId) == s;
    assert Find(a.pending, clientOrderId) == p;
  }

  /** Every event of a submission names the order, its client, strategy and account, and what was asked. */
  lemma SubmissionIsReported(a: Attachment, r: OrderRequest, orderId: string, m: Market)
    ensures var events := SubmitTo(a, r, orderId, m).events;
      && |events| == 2 && Turned(events[0], Submitted)
      && forall e :: e in events ==>
           && e.orderId == orderId && e.clientOrderId == (if r.clientOrderId == "" then orderId else r.clientOrderId)
           && e.strategyId == r.strategyId && e.accountId == r.accountId && e.instrument == r.instrument
           && e.exchange == r.exchange && e.side == r.side && e.offset == r.offset && e.requestedVolume == r.volume
           && e.limitPrice == r.limitPrice && e.timestamp == m.tick.timestamp
  {
    hide FateOf, BookFill, SnapshotOf;
  }
}
