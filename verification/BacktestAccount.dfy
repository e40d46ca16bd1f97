/** A simulated account: its operations on values, and the mutable object that performs them. */
module BacktestAccount {
  import opened Numeric
  import opened Domain
  import opened Ledger
  import opened TradeFlow
  import opened Matcher
  import opened Backtest

  type Attachments = map<string, Attachment>

  predicate Lists(attachments: Attachments, names: seq<string>) {
    forall n :: n in names ==> n in attachments
  }

  /** The roster names each attachment once. */
  ghost predicate WellFormed(a: Account) {
    Covers(a.attachments, a.roster)
  }

  ghost predicate Covers(attachments: Attachments, roster: seq<string>) {
    && (forall i, j :: 0 <= i < j < |roster| ==> roster[i] != roster[j])
    && (forall n :: n in roster <==> n in attachments)
  }

  function PnlOver(attachments: Attachments, names: seq<string>): real
    requires Lists(attachments, names)
  {
    if names == [] then 0.0
    else PnlOver(attachments, names[..|names| - 1]) + attachments[names[|names| - 1]].pnl
  }

  function NetAt(m: map<string, int>, i: string): int {
    if i in m then m[i] else 0
  }

  function AddNets(m: map<string, int>, positions: map<string, Position>): map<string, int> {
    map i | i in m.Keys + positions.Keys :: NetAt(m, i) + if i in positions then positions[i].Net() else 0
  }

  function NetPositions(attachments: Attachments, names: seq<string>): map<string, int>
    requires Lists(attachments, names)
  {
    if names == [] then map[]
    else AddNets(NetPositions(attachments, names[..|names| - 1]), attachments[names[|names| - 1]].positions)
  }

  /** `refresh_backtest_account_snapshot`. */
  function Refresh(a: Account): Account
    requires WellFormed(a)
  {
    var realized := PnlOver(a.attachments, a.roster);
    a.(realized := realized, netPositions := NetPositions(a.attachments, a.roster), cash := a.initialCash + realized)
  }

  datatype Result = Result(account: Account, events: seq<OrderEvent>)

  function Submit(a: Account, r: OrderRequest, m: Market): (out: Result)
    requires WellFormed(a)
    ensures WellFormed(out.account)
  {
    var orderId := OrderId(a.id, a.nextOrderId);
    var next := a.(nextOrderId := a.nextOrderId + 1);
    if r.strategyId !in a.attachments then
      Result(next, [MakeEvent(r, orderId, Submitted, 0, 0.0, m.tick.timestamp),
                    MakeEvent(r, orderId, Rejected, 0, 0.0, m.tick.timestamp)])
    else
      var out := SubmitTo(a.attachments[r.strategyId], r, orderId, m);
      var after := next.(attachments := a.attachments[r.strategyId := out.attachment]);
      Result(if FateOf(a.attachments[r.strategyId], r, orderId, m).FilledAt? then Refresh(after) else after, out.events)
  }

  /** Serve the named attachments in turn. */
  function ServiceOver(a: Account, names: seq<string>, m: Market): (out: Result)
    requires WellFormed(a) && Lists(a.attachments, names)
    ensures out.account == a.(attachments := out.account.attachments)
    ensures out.account.attachments.Keys == a.attachments.Keys
  {
    if names == [] then Result(a, [])
    else
      var name := names[|names| - 1];
      var before := ServiceOver(a, names[..|names| - 1], m);
      var out := ServiceAttachment(before.account.attachments[name], m);
      Result(before.account.(attachments := before.account.attachments[name := out.attachment]),
             before.events + out.events)
  }

  function Service(a: Account, m: Market): (out: Result)
    requires WellFormed(a)
    ensures WellFormed(out.account)
  {
    var out := ServiceOver(a, a.roster, m);
    if out.events == [] then out else out.(account := Refresh(out.account))
  }

  function Activate(a: Account, tick: MarketTick): Account {
    a.(attachments := map n | n in a.attachments :: ActivateIn(a.attachments[n], tick))
  }

  function Cancel(a: Account, strategyId: string, clientOrderId: string, timestamp: string): (out: Result)
    ensures WellFormed(a) ==> WellFormed(out.account)
  {
    if strategyId !in a.attachments then Result(a, [])
    else
      var out := CancelIn(a.attachments[strategyId], clientOrderId, timestamp);
      Result(a.(attachments := a.attachments[strategyId := out.attachment]), out.events)
  }

  function RollAccount(a: Account): (rolled: Account)
    requires WellFormed(a)
    ensures WellFormed(rolled)
  {
    Refresh(a.(attachments := map n | n in a.attachments :: RollAttachment(a.attachments[n])))
  }

  // ---- Loops over attachments and their orders ----

  method ActivateOrders(a: Attachment, tick: MarketTick) returns (b: Attachment)
    ensures b == ActivateIn(a, tick)
  {
    hide IsDue;
    var stillScheduled: seq<PendingOrder> := [];
    var pending := a.pending;
    for i := 0 to |a.scheduled|
      invariant stillScheduled == StillScheduled(a.scheduled[..i], tick)
      invariant pending == a.pending + Due(a.scheduled[..i], tick)
    {
      var order := a.scheduled[i];
      assert a.scheduled[..i + 1][..i] == a.scheduled[..i];
      if IsDue(order, tick) {
        pending := pending + [order.(request := order.request.(activateAtMs := 0))];
      } else {
        stillScheduled := stillScheduled + [order];
      }
    }
    assert a.scheduled[..|a.scheduled|] == a.scheduled;
    b := a.(scheduled := stillScheduled, pending := pending);
  }

  method ActivateAll(attachments: Attachments, roster: seq<string>, tick: MarketTick) returns (updated: Attachments)
    requires Covers(attachments, roster)
    ensures updated == map n | n in attachments :: ActivateIn(attachments[n], tick)
  {
    hide ActivateIn;
    updated := attachments;
    for k := 0 to |roster|
      invariant updated
             == map n | n in attachments :: if n in roster[..k] then ActivateIn(attachments[n], tick) else attachments[n]
    {
      var b := ActivateOrders(updated[roster[k]], tick);
      updated := updated[roster[k] := b];
      assert roster[..k + 1] == roster[..k] + [roster[k]];
    }
    assert roster[..|roster|] == roster;
  }

  method RollAll(attachments: Attachments, roster: seq<string>) returns (updated: Attachments)
    requires Covers(attachments, roster)
    ensures updated == map n | n in attachments :: RollAttachment(attachments[n])
  {
    hide RollAttachment;
    updated := attachments;
    for k := 0 to |roster|
      invariant updated
             == map n | n in attachments :: if n in roster[..k] then RollAttachment(attachments[n]) else attachments[n]
    {
      updated := updated[roster[k] := RollAttachment(updated[roster[k]])];
      assert roster[..k + 1] == roster[..k] + [roster[k]];
    }
    assert roster[..|roster|] == roster;
  }

  // ---- The mutable account ----

  class SimAccount {
    const id: string
    const initialCash: real
    const roster: seq<string>
    var realized: real
    var cash: real
    var netPositions: map<string, int>
    var attachments: Attachments
    var nextOrderId: nat

    constructor (a: Account)
      ensures Value() == a
    {
      id, initialCash, roster := a.id, a.initialCash, a.roster;
      realized, cash, netPositions := a.realized, a.cash, a.netPositions;
      attachments, nextOrderId := a.attachments, a.nextOrderId;
    }

    function Value(): Account
      reads this
    {
      Account(id, initialCash, realized, cash, netPositions, roster, attachments, nextOrderId)
    }

    method RefreshSnapshot()
      requires WellFormed(Value())
      modifies this
      ensures Value() == Refresh(old(Value()))
    {
      realized, netPositions := 0.0, map[];
      for k := 0 to |roster|
        invariant Value() == old(Value()).(realized := realized, netPositions := netPositions)
        invariant realized == PnlOver(attachments, roster[..k])
        invariant netPositions == NetPositions(attachments, roster[..k])
      {
        assert roster[..k + 1][..k] == roster[..k];
        realized := realized + attachments[roster[k]].pnl;
        netPositions := AddNets(netPositions, attachments[roster[k]].positions);
      }
      assert roster[..|roster|] == roster;
      cash := initialCash + realized;
    }

    /** Apply a fill to a position of an attachment. */
    method Execute(a: Attachment, r: OrderRequest, price: real, quantity: int) returns (b: Attachment)
      ensures b == BookFill(a, r, price, quantity)
    {
      var position := new PositionState(PositionOf(a, r.instrument));
      var profit := position.ApplyFill(r, price, quantity, a.costs);
      b := a.(positions := a.positions[r.instrument := position.Value()], pnl := a.pnl + profit,
              unbooked := a.unbooked + Unbooked(PositionOf(a, r.instrument), r, price, quantity));
      if quantity > 0 {
        b := b.(filledVolume := b.filledVolume + quantity);
        if r.offset.Open? {
          b := b.(filledOpenVolume := b.filledOpenVolume + quantity);
        }
      }
    }

    /** Carry out the fate of a submitted order. */
    method SettleOrder(a: Attachment, r: OrderRequest, orderId: string, fate: Fate, timestamp: string)
      returns (b: Attachment, event: OrderEvent)
      ensures Outcome(b, [event]) == Settle(a, r, orderId, fate, timestamp)
    {
      match fate {
        case Refused =>
          event := MakeEvent(r, orderId, Rejected, 0, 0.0, timestamp);
          b := CloseOrder(a, event);
        case FilledAt(price) =>
          event := MakeEvent(r, orderId, Filled, r.volume, price, timestamp);
          b := Execute(a, r, price, r.volume);
          b := CloseOrder(b, event);
        case Scheduled(order) =>
          event := MakeEvent(r, orderId, Accepted, 0, 0.0, timestamp);
          b := a.(scheduled := a.scheduled + [order], openOrders := a.openOrders[orderId := SnapshotOf(order)]);
        case Rests(order) =>
          event := MakeEvent(r, orderId, Accepted, 0, 0.0, timestamp);
          b := a.(pending := a.pending + [order], openOrders := a.openOrders[orderId := SnapshotOf(order)]);
      }
    }

    method SubmitOrder(r: OrderRequest, m: Market) returns (accepted: bool, events: seq<OrderEvent>)
      requires WellFormed(Value())
      modifies this
      ensures Result(Value(), events) == Submit(old(Value()), r, m)
      ensures accepted == (r.strategyId in old(attachments)
                           && !FateOf(old(attachments)[r.strategyId], r, OrderId(id, old(nextOrderId)), m).Refused?)
    {
      hide FateOf, Settle, Refresh, MakeEvent, Touch;
      var orderId, timestamp := OrderId(id, nextOrderId), m.tick.timestamp;
      nextOrderId := nextOrderId + 1;
      events := [MakeEvent(r, orderId, Submitted, 0, 0.0, timestamp)];
      if r.strategyId !in attachments {
        events := events + [MakeEvent(r, orderId, Rejected, 0, 0.0, timestamp)];
        return false, events;
      }
      var a := attachments[r.strategyId];
      var fate := FateOf(a, r, orderId, m);
      var b, event := SettleOrder(Touch(a, r.instrument), r, orderId, fate, timestamp);
      attachments := attachments[r.strategyId := b];
      events := events + [event];
      if fate.FilledAt? {
        RefreshSnapshot();
      }
      accepted := !fate.Refused?;
    }

    /** Serve one pending order: keep it, fill it in whole or in part, or reject a close that is no longer covered. */
    method ServeOrder(a: Attachment, o: PendingOrder, m: Market)
      returns (b: Attachment, kept: seq<PendingOrder>, emitted: seq<OrderEvent>)
      ensures Serviced(b, kept, emitted) == ServiceOrder(a, o, m)
    {
      hide MatchOf, CloseRequestIsValid, FillOf, MakeEvent, SnapshotOf;
      var found := MatchOf(a, o, m);
      var order, r, timestamp := found.order, found.order.request, m.tick.timestamp;
      if found.volume <= 0 {
        return a, [order], [];
      }
      if !CloseRequestIsValid(PositionOf(a, r.instrument), r.(volume := order.remaining)) {
        var event := MakeEvent(r, order.orderId, Rejected, 0, 0.0, timestamp);
        return CloseOrder(Touch(a, r.instrument), event), [], [event];
      }
      b := Execute(a, r, found.price, found.volume);
      order := order.(remaining := order.remaining - found.volume, filled := order.filled + found.volume);
      var status := if order.remaining == 0 then Filled else PartiallyFilled;
      var event := MakeEvent(r, order.orderId, status, found.volume, found.price, timestamp);
      if order.remaining == 0 {
        return CloseOrder(b, event), [], [event];
      }
      var snapshot := SnapshotOf(order).(filledPrice := found.price, timestamp := timestamp);
      return b.(openOrders := b.openOrders[order.orderId := snapshot]), [order], [event];
    }

    /** One attachment's share of `service_backtest_pending_orders`. */
    method ServicePending(a: Attachment, m: Market) returns (b: Attachment, events: seq<OrderEvent>)
      ensures Outcome(b, events) == ServiceAttachment(a, m)
    {
      hide ServiceOrder;
      b, events := a, [];
      var stillPending: seq<PendingOrder> := [];
      for i := 0 to |a.pending|
        invariant ServiceOrders(a, a.pending[..i], m) == Serviced(b, stillPending, events)
      {
        assert a.pending[..i + 1][..i] == a.pending[..i];
        var kept, emitted;
        b, kept, emitted := ServeOrder(b, a.pending[i], m);
        stillPending, events := stillPending + kept, events + emitted;
      }
      assert a.pending[..|a.pending|] == a.pending;
      b := b.(pending := stillPending);
    }

    method ServicePendingOrders(m: Market) returns (events: seq<OrderEvent>)
      requires WellFormed(Value())
      modifies this
      ensures Result(Value(), events) == Service(old(Value()), m)
    {
      hide ServiceAttachment, Refresh;
      events := [];
      for k := 0 to |roster|
        invariant Result(Value(), events) == ServiceOver(old(Value()), roster[..k], m)
      {
        assert roster[..k + 1][..k] == roster[..k];
        var b, emitted := ServicePending(attachments[roster[k]], m);
        attachments := attachments[roster[k] := b];
        events := events + emitted;
      }
      assert roster[..|roster|] == roster;
      if events != [] {
        RefreshSnapshot();
      }
    }

    method ActivateScheduledOrders(tick: MarketTick)
      requires WellFormed(Value())
      modifies this
      ensures Value() == Activate(old(Value()), tick)
    {
      attachments := ActivateAll(attachments, roster, tick);
    }

    method CancelOrder(strategyId: string, clientOrderId: string, timestamp: string)
      returns (cancelled: bool, events: seq<OrderEvent>)
      modifies this
      ensures Result(Value(), events) == Cancel(old(Value()), strategyId, clientOrderId, timestamp)
      ensures cancelled <==> events != []
    {
      hide CloseOrder, CancelEvent;
      if strategyId !in attachments {
        return false, [];
      }
      var a := attachments[strategyId];
      var i := FindIn(a.scheduled, clientOrderId);
      if i < |a.scheduled| {
        var event := CancelEvent(a.scheduled[i], timestamp);
        attachments := attachments[strategyId := CloseOrder(a, event).(scheduled := Without(a.scheduled, i))];
        return true, [event];
      }
      i := FindIn(a.pending, clientOrderId);
      if i < |a.pending| {
        var event := CancelEvent(a.pending[i], timestamp);
        attachments := attachments[strategyId := CloseOrder(a, event).(pending := Without(a.pending, i))];
        return true, [event];
      }
      assert attachments[strategyId := a] == attachments;
      return false, [];
    }

    method FindIn(orders: seq<PendingOrder>, clientOrderId: string) returns (i: nat)
      ensures i == Find(orders, clientOrderId)
    {
      i := 0;
      while i < |orders| && orders[i].request.clientOrderId != clientOrderId
        invariant 0 <= i <= |orders|
        invariant forall j :: 0 <= j < i ==> orders[j].request.clientOrderId != clientOrderId
      {
        i := i + 1;
      }
      FindIsFirst(orders, clientOrderId, i);
    }

    method RollToNextTradingDay()
      requires WellFormed(Value())
      modifies this
      ensures Value() == RollAccount(old(Value()))
    {
      hide Refresh;
      attachments := RollAll(attachments, roster);
      RefreshSnapshot();
    }
  }

  lemma {:induction false} FindIsFirst(orders: seq<PendingOrder>, clientOrderId: string, i: nat)
    requires i <= |orders|
    requires i < |orders| ==> orders[i].request.clientOrderId == clientOrderId
    requires forall j :: 0 <= j < i ==> orders[j].request.clientOrderId != clientOrderId
    ensures Find(orders, clientOrderId) == i
  {
    if i > 0 {
      FindIsFirst(orders[1..], clientOrderId, i - 1);
    }
  }
}
