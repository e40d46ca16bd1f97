/** Trading days of a backtest account: what the day roll does, and in which buckets lots are found as days go by. */
module BacktestDays {
  import opened Numeric
  import opened Domain
  import opened Ledger
  import opened Matcher
  import opened Backtest
  import opened BacktestBooks
  import opened BacktestAccount
  import opened BacktestRuns

  // ---- The roll itself ----

  /** A day later every lot counts as yesterday's, at its cost; orders, counters and profit are as they were. */
  predicate NextDay(a: Attachment, later: Attachment) {
    && later == a.(positions := later.positions) && later.positions.Keys == a.positions.Keys
    && forall i :: i in a.positions ==> RolledOver(a.positions[i], later.positions[i])
  }

  lemma RollIsNextDay(a: Attachment)
    ensures NextDay(a, RollAttachment(a))
  {
    hide Roll, RolledOver;
    forall i | i in a.positions ensures RolledOver(a.positions[i], RollAttachment(a).positions[i]) {
      RollCarriesOver(a.positions[i]);
    }
  }

  /** The day roll of an account takes every attachment to the next day and, beside the refreshed snapshot, does nothing. */
  lemma AccountRollIsNextDay(a: Account)
    requires WellFormed(a)
    ensures var later := RollAccount(a);
      && later == a.(attachments := later.attachments, realized := later.realized, cash := later.cash,
                     netPositions := later.netPositions)
      && later.attachments.Keys == a.attachments.Keys
      && forall n :: n in a.attachments ==> NextDay(a.attachments[n], later.attachments[n])
  {
    hide RollAttachment, NextDay, PnlOver, NetPositions;
    forall n | n in a.attachments ensures NextDay(a.attachments[n], RollAttachment(a.attachments[n])) {
      RollIsNextDay(a.attachments[n]);
    }
  }

  // ---- Between two rolls ----

  /** Lots of an instrument opened by executions, long and short. */
  function OpenedOver(events: seq<OrderEvent>, instrument: string): Sides {
    if events == [] then Sides(0, 0)
    else OpenedOver(events[..|events| - 1], instrument).Plus(OpenedBy(LastOf(events), instrument))
  }

  function OpenedBy(e: OrderEvent, instrument: string): Sides {
    if e.offset.Open? then SidesOfEvent(e, instrument) else Sides(0, 0)
  }

  lemma {:induction false} OpenedConcat(x: seq<OrderEvent>, y: seq<OrderEvent>, instrument: string)
    ensures OpenedOver(x + y, instrument) == OpenedOver(x, instrument).Plus(OpenedOver(y, instrument))
    decreases |y|
  {
    hide OpenedBy;
    if y == [] {
      assert x + y == x;
    } else {
      OpenedConcat(x, y[..|y| - 1], instrument);
      assert (x + y)[..|x + y| - 1] == x + y[..|y| - 1] && LastOf(x + y) == LastOf(y);
    }
  }

  /** During a day, yesterday's buckets only shrink and today's grow by no more than what is opened. */
  predicate Ages(p: Position, later: Position, opens: Sides) {
    p.NonNegative() ==>
      && later.NonNegative()
      && later.longToday.quantity <= p.longToday.quantity + opens.long
      && later.shortToday.quantity <= p.shortToday.quantity + opens.short
      && later.longYesterday.quantity <= p.longYesterday.quantity
      && later.shortYesterday.quantity <= p.shortYesterday.quantity
  }

  ghost predicate Drifts(a: Attachment, b: Attachment, events: seq<OrderEvent>) {
    forall i :: Ages(PositionOf(a, i), PositionOf(b, i), OpenedOver(events, i))
  }

  lemma DriftsOn(a: Attachment, b: Attachment, c: Attachment, x: seq<OrderEvent>, y: seq<OrderEvent>)
    requires Drifts(a, b, x) && Drifts(b, c, y)
    ensures Drifts(a, c, x + y)
  {
    hide OpenedOver, PositionOf, Position.NonNegative;
    forall i ensures Ages(PositionOf(a, i), PositionOf(c, i), OpenedOver(x + y, i)) {
      OpenedConcat(x, y, i);
      assert Ages(PositionOf(a, i), PositionOf(b, i), OpenedOver(x, i));
      assert Ages(PositionOf(b, i), PositionOf(c, i), OpenedOver(y, i));
    }
  }

  /** The positions stay, and nothing is executed. */
  lemma Unmoved(a: Attachment, b: Attachment, events: seq<OrderEvent>)
    requires forall i :: PositionOf(b, i) == PositionOf(a, i)
    requires forall e :: e in events ==> !Traded(e)
    ensures Drifts(a, b, events)
  {
    hide PositionOf, Position.NonNegative;
    forall i ensures OpenedOver(events, i) == Sides(0, 0) {
      NothingOpened(events, i);
    }
  }

  lemma {:induction false} NothingOpened(events: seq<OrderEvent>, instrument: string)
    requires forall e :: e in events ==> !Traded(e)
    ensures OpenedOver(events, instrument) == Sides(0, 0)
  {
    if events != [] {
      NothingOpened(events[..|events| - 1], instrument);
    }
  }

  lemma FillAges(p: Position, r: OrderRequest, price: real, quantity: int, costs: CostModel)
    ensures Ages(p, FillOf(p, r, price, quantity, costs).position,
                 if r.offset.Open? then SidesOfFill(r.side, r.offset, Max(0, quantity)) else Sides(0, 0))
  {
    hide Notional, NetOfFees, WeightedAveragePrice, ClosesYesterdayByDefault, Gain;
  }

  lemma OpenedByOne(e: OrderEvent, instrument: string)
    ensures OpenedOver([e], instrument) == OpenedBy(e, instrument)
  {
    assert [e][..0] == [] && LastOf([e]) == e;
  }

  lemma FillDrifts(a: Attachment, r: OrderRequest, price: real, quantity: int, e: OrderEvent)
    requires Reports(e, r, price, quantity)
    ensures Drifts(a, BookFill(a, r, price, quantity), [e])
  {
    hide FillOf, Ages, OpenedOver;
    var p, b := PositionOf(a, r.instrument), BookFill(a, r, price, quantity);
    FillAges(p, r, price, quantity, a.costs);
    forall i ensures Ages(PositionOf(a, i), PositionOf(b, i), OpenedOver([e], i)) {
      OpenedByOne(e, i);
      StaysYoung(PositionOf(a, i));
    }
  }

  lemma StaysYoung(p: Position)
    ensures Ages(p, p, Sides(0, 0))
  {
  }

  /** Only the positions matter. */
  lemma SamePositionsDrift(a: Attachment, b: Attachment, c: Attachment, events: seq<OrderEvent>)
    requires Drifts(a, b, events) && c.positions == b.positions
    ensures Drifts(a, c, events)
  {
    hide OpenedOver, Ages;
    forall i ensures PositionOf(c, i) == PositionOf(b, i) {
    }
  }

  lemma SubmitDrifts(a: Attachment, r: OrderRequest, orderId: string, m: Market)
    ensures Drifts(a, SubmitTo(a, r, orderId, m).attachment, SubmitTo(a, r, orderId, m).events)
  {
    hide FateOf, SnapshotOf, Drifts, BookFill;
    var touched, out := Touch(a, r.instrument), SubmitTo(a, r, orderId, m);
    var fate := FateOf(a, r, orderId, m);
    if fate.FilledAt? {
      var submitted, e := out.events[0], out.events[1];
      Unmoved(a, touched, [submitted]);
      FillDrifts(touched, r, fate.price, r.volume, e);
      SamePositionsDrift(touched, BookFill(touched, r, fate.price, r.volume), out.attachment, [e]);
      DriftsOn(a, touched, out.attachment, [submitted], [e]);
      assert out.events == [submitted] + [e];
    } else {
      assert out.attachment.positions == touched.positions;
      Unmoved(a, out.attachment, out.events);
    }
  }

  lemma ServiceMatchDrifts(a: Attachment, p: PricedMatch, timestamp: string)
    ensures Drifts(a, ServiceMatch(a, p, timestamp).attachment, ServiceMatch(a, p, timestamp).events)
  {
    hide SnapshotOf, Drifts, BookFill, CloseRequestIsValid;
    var s := ServiceMatch(a, p, timestamp);
    if s.events != [] && Traded(s.events[0]) {
      var booked := BookFill(a, p.order.request, p.price, p.volume);
      FillDrifts(a, p.order.request, p.price, p.volume, s.events[0]);
      SamePositionsDrift(a, booked, s.attachment, s.events);
    } else {
      Unmoved(a, s.attachment, s.events);
    }
  }

  lemma {:induction false} ServiceOrdersDrift(a: Attachment, orders: seq<PendingOrder>, m: Market)
    ensures Drifts(a, ServiceOrders(a, orders, m).attachment, ServiceOrders(a, orders, m).events)
  {
    hide Drifts, MatchOf, ServiceMatch;
    if orders == [] {
      Unmoved(a, a, []);
    } else {
      var before, o := ServiceOrders(a, orders[..|orders| - 1], m), orders[|orders| - 1];
      ServiceOrdersDrift(a, orders[..|orders| - 1], m);
      ServiceMatchDrifts(before.attachment, MatchOf(before.attachment, o, m), m.tick.timestamp);
      var last := ServiceOrder(before.attachment, o, m);
      DriftsOn(a, before.attachment, last.attachment, before.events, last.events);
    }
  }

  lemma ServiceDrifts(a: Attachment, m: Market)
    ensures Drifts(a, ServiceAttachment(a, m).attachment, ServiceAttachment(a, m).events)
  {
    hide Drifts, ServiceOrders;
    ServiceOrdersDrift(a, a.pending, m);
    var s := ServiceOrders(a, a.pending, m);
    SamePositionsDrift(a, s.attachment, ServiceAttachment(a, m).attachment, s.events);
  }

  lemma CancelDrifts(a: Attachment, clientOrderId: string, timestamp: string)
    ensures Drifts(a, CancelIn(a, clientOrderId, timestamp).attachment, CancelIn(a, clientOrderId, timestamp).events)
  {
    hide Drifts, Find;
    Unmoved(a, CancelIn(a, clientOrderId, timestamp).attachment, CancelIn(a, clientOrderId, timestamp).events);
  }

  // ---- Whole accounts ----

  /** Each attachment ages by its own events. */
  ghost predicate AllDrift(x: Attachments, y: Attachments, events: seq<OrderEvent>) {
    y.Keys == x.Keys && forall n :: n in x ==> Drifts(x[n], y[n], Of(events, n))
  }

  lemma AllDriftOn(x: Attachments, y: Attachments, z: Attachments, events: seq<OrderEvent>, more: seq<OrderEvent>)
    requires AllDrift(x, y, events) && AllDrift(y, z, more)
    ensures AllDrift(x, z, events + more)
  {
    hide Drifts, Of;
    forall n | n in x ensures Drifts(x[n], z[n], Of(events + more, n)) {
      OfConcat(events, more, n);
      DriftsOn(x[n], y[n], z[n], Of(events, n), Of(more, n));
    }
  }

  lemma OneDrifts(x: Attachments, name: string, after: Attachment, events: seq<OrderEvent>)
    requires name in x && Drifts(x[name], after, events)
    requires forall i :: 0 <= i < |events| ==> events[i].strategyId == name
    ensures AllDrift(x, x[name := after], events)
  {
    hide Drifts;
    forall n | n in x ensures Drifts(x[n], x[name := after][n], Of(events, n)) {
      OfOwn(events, name, n);
      Unmoved(x[n], x[n], []);
    }
  }

  lemma {:induction false} ServiceOverDrifts(a: Account, names: seq<string>, m: Market, log: seq<OrderEvent>)
    requires WellFormed(a) && Lists(a.attachments, names)
    requires AllBooks(a.attachments, log) && IdsFresh(a.id, a.attachments, a.nextOrderId, log)
    ensures var out := ServiceOver(a, names, m); AllDrift(a.attachments, out.account.attachments, out.events)
  {
    hide Books, ServiceAttachment, From, AllBooks, IdsFresh, AllDrift, Drifts;
    if names == [] {
      NothingDrifts(a.attachments);
    } else {
      var name, shorter := names[|names| - 1], names[..|names| - 1];
      ServiceOverDrifts(a, shorter, m, log);
      ServiceOverKeeps(a, shorter, m, log);
      var before := ServiceOver(a, shorter, m);
      var x, all := before.account.attachments, log + before.events;
      var out := ServiceAttachment(x[name], m);
      OwnBooks(x, name, all);
      ServiceKeepsBooks(x[name], name, m, Of(all, name));
      FromNames(out.events, name);
      ServiceDrifts(x[name], m);
      OneDrifts(x, name, out.attachment, out.events);
      AllDriftOn(a.attachments, x, x[name := out.attachment], before.events, out.events);
    }
  }

  lemma NothingDrifts(x: Attachments)
    ensures AllDrift(x, x, [])
  {
    hide Drifts;
    forall n | n in x ensures Drifts(x[n], x[n], Of([], n)) {
      Unmoved(x[n], x[n], []);
    }
  }

  lemma SubmitToAllDrifts(a: Account, r: OrderRequest, m: Market, log: seq<OrderEvent>)
    requires WellFormed(a) && AccountBooks(a, log)
    ensures var out := Submit(a, r, m); AllDrift(a.attachments, out.account.attachments, out.events)
  {
    hide Books, SubmitTo, SubmittedIds, PnlOver, NetPositions, OrderId, MakeEvent, SnapshotAgrees, FateOf, AllDrift, AllBooks;
    var out, orderId, name := Submit(a, r, m), OrderId(a.id, a.nextOrderId), r.strategyId;
    if name !in a.attachments {
      UnknownDoesNotDrift(a.attachments, r, orderId, m);
    } else {
      assert orderId !in SubmittedIds(Of(log, name));
      SubmitKeepsAttachments(a.attachments, name, r, orderId, m, log);
      SubmitDrifts(a.attachments[name], r, orderId, m);
      OneDrifts(a.attachments, name, SubmitTo(a.attachments[name], r, orderId, m).attachment, out.events);
    }
  }

  lemma UnknownDoesNotDrift(x: Attachments, r: OrderRequest, orderId: string, m: Market)
    requires r.strategyId !in x
    ensures AllDrift(x, x, [MakeEvent(r, orderId, Submitted, 0, 0.0, m.tick.timestamp),
                            MakeEvent(r, orderId, Rejected, 0, 0.0, m.tick.timestamp)])
  {
    hide Drifts;
    var events := [MakeEvent(r, orderId, Submitted, 0, 0.0, m.tick.timestamp),
                   MakeEvent(r, orderId, Rejected, 0, 0.0, m.tick.timestamp)];
    forall n | n in x ensures Drifts(x[n], x[n], Of(events, n)) {
      OfOwn(events, r.strategyId, n);
      Unmoved(x[n], x[n], []);
    }
  }

  /** Every step but the roll. */
  lemma StepDrifts(a: Account, s: Step, log: seq<OrderEvent>)
    requires WellFormed(a) && AccountBooks(a, log) && !s.RollStep?
    ensures AllDrift(a.attachments, Apply(a, s).account.attachments, Apply(a, s).events)
  {
    hide Submit, ServiceOver, CancelIn, AllDrift, AllBooks, Books, IdsFresh, SnapshotAgrees, ActivateIn, PnlOver,
      NetPositions, From;
    match s {
      case SubmitStep(r, m) => SubmitToAllDrifts(a, r, m, log);
      case ServiceStep(m) => ServiceOverDrifts(a, a.roster, m, log);
      case ActivateStep(tick) => ActivationDoesNotDrift(a, tick);
      case CancelStep(name, client, timestamp) =>
        if name in a.attachments {
          OwnBooks(a.attachments, name, log);
          CancelKeepsBooks(a.attachments[name], name, client, timestamp, Of(log, name));
          var out := CancelIn(a.attachments[name], client, timestamp);
          FromNames(out.events, name);
          CancelDrifts(a.attachments[name], client, timestamp);
          OneDrifts(a.attachments, name, out.attachment, out.events);
        } else {
          NothingDrifts(a.attachments);
        }
    }
  }

  lemma ActivationDoesNotDrift(a: Account, tick: MarketTick)
    ensures AllDrift(a.attachments, Activate(a, tick).attachments, [])
  {
    hide Drifts, StillScheduled, Due;
    forall n | n in a.attachments ensures Drifts(a.attachments[n], Activate(a, tick).attachments[n], Of([], n)) {
      Unmoved(a.attachments[n], Activate(a, tick).attachments[n], []);
    }
  }

  // ---- Runs ----

  /** The events of a run up to its last day roll, and those since. */
  function BeforeRoll(a: Account, steps: seq<Step>): seq<OrderEvent>
    requires WellFormed(a)
  {
    if steps == [] then []
    else if steps[|steps| - 1].RollStep? then Run(a, steps).events
    else BeforeRoll(a, steps[..|steps| - 1])
  }

  function SinceRoll(a: Account, steps: seq<Step>): seq<OrderEvent>
    requires WellFormed(a)
  {
    if steps == [] || steps[|steps| - 1].RollStep? then []
    else
      var front := steps[..|steps| - 1];
      SinceRoll(a, front) + Apply(Run(a, front).account, steps[|steps| - 1]).events
  }

  /** Lots opened since the last roll bound today's buckets, and lots held at it yesterday's. */
  predicate Dated(p: Position, opens: Sides, carried: Sides) {
    && 0 <= p.longToday.quantity <= opens.long && 0 <= p.shortToday.quantity <= opens.short
    && 0 <= p.longYesterday.quantity <= carried.long && 0 <= p.shortYesterday.quantity <= carried.short
  }

  ghost predicate AllDated(x: Attachments, since: seq<OrderEvent>, before: seq<OrderEvent>) {
    forall n, i :: n in x ==> Dated(PositionOf(x[n], i), OpenedOver(Of(since, n), i), SidesOver(Of(before, n), i))
  }

  lemma StaysDated(x: Attachments, y: Attachments, since: seq<OrderEvent>, before: seq<OrderEvent>, more: seq<OrderEvent>)
    requires AllDated(x, since, before) && AllDrift(x, y, more)
    ensures AllDated(y, since + more, before)
  {
    hide OpenedOver, SidesOver, PositionOf, Of;
    forall n, i | n in y ensures Dated(PositionOf(y[n], i), OpenedOver(Of(since + more, n), i), SidesOver(Of(before, n), i)) {
      OfConcat(since, more, n);
      OpenedConcat(Of(since, n), Of(more, n), i);
      assert Drifts(x[n], y[n], Of(more, n));
      assert Ages(PositionOf(x[n], i), PositionOf(y[n], i), OpenedOver(Of(more, n), i));
    }
  }

  lemma RolledIsDated(a: Account, log: seq<OrderEvent>)
    requires WellFormed(a) && AccountBooks(a, log)
    ensures AllDated(RollAccount(a).attachments, [], log)
  {
    hide RollAccount, SidesOver, IdsFresh, SnapshotAgrees, Orders, CashFlowHolds, RolledOver;
    AccountRollIsNextDay(a);
    var later := RollAccount(a).attachments;
    forall n, i | n in later ensures Dated(PositionOf(later[n], i), OpenedOver(Of([], n), i), SidesOver(Of(log, n), i)) {
      OwnBooks(a.attachments, n, log);
      assert NextDay(a.attachments[n], later[n]);
      DatedAnew(a.attachments[n], later[n], i);
    }
  }

  lemma DatedAnew(a: Attachment, later: Attachment, i: string)
    requires NextDay(a, later) && PositionOf(a, i).NonNegative()
    ensures Dated(PositionOf(later, i), Sides(0, 0), SidesOf(PositionOf(a, i)))
  {
  }

  lemma FreshIsDated(a: Account)
    requires WellFormed(a) && Fresh(a)
    ensures AllDated(a.attachments, [], [])
  {
    hide Refresh;
    forall n, i | n in a.attachments
      ensures Dated(PositionOf(a.attachments[n], i), OpenedOver(Of([], n), i), SidesOver(Of([], n), i)) {
      assert FreshAttachment(a.attachments[n]);
    }
  }

  lemma {:induction false} RunIsDated(a: Account, steps: seq<Step>)
    requires WellFormed(a) && Fresh(a)
    ensures AllDated(Run(a, steps).account.attachments, SinceRoll(a, steps), BeforeRoll(a, steps))
    ensures BeforeRoll(a, steps) + SinceRoll(a, steps) == Run(a, steps).events
  {
    hide AllDated, Apply, AccountBooks, Fresh, AllDrift;
    if steps == [] {
      FreshIsDated(a);
    } else {
      var front, last := steps[..|steps| - 1], steps[|steps| - 1];
      var before := Run(a, front);
      RunIsDated(a, front);
      RunKeepsBooks(a, front);
      if last.RollStep? {
        RolledIsDated(before.account, before.events);
        RollEmitsNothing(before.account);
        assert last == RollStep && before.events + [] == before.events;
      } else {
        StepDrifts(before.account, last, before.events);
        StaysDated(before.account.attachments, Run(a, steps).account.attachments, SinceRoll(a, front),
                   BeforeRoll(a, front), Apply(before.account, last).events);
        Associates(BeforeRoll(a, front), SinceRoll(a, front), Apply(before.account, last).events);
      }
    }
  }

  lemma RollEmitsNothing(a: Account)
    requires WellFormed(a)
    ensures Apply(a, RollStep) == Result(RollAccount(a), [])
  {
  }

  /** Lots opened on an earlier day are in yesterday's buckets: over every run, today's buckets hold at most what was opened
      since the last day roll, and yesterday's at most what was held at it; together they hold all that is open. */
  lemma LotsAgeOverRuns(a: Account, steps: seq<Step>, name: string, i: string)
    requires WellFormed(a) && Fresh(a) && name in Run(a, steps).account.attachments
    ensures BeforeRoll(a, steps) + SinceRoll(a, steps) == Run(a, steps).events
    ensures var p := PositionOf(Run(a, steps).account.attachments[name], i);
      && Dated(p, OpenedOver(Of(SinceRoll(a, steps), name), i), SidesOver(Of(BeforeRoll(a, steps), name), i))
      && Sides(p.longToday.quantity + p.longYesterday.quantity, p.shortToday.quantity + p.shortYesterday.quantity)
         == SidesOver(Of(Run(a, steps).events, name), i)
  {
    hide Run, Fresh, OpenedOver, SidesOver, PositionOf;
    RunIsDated(a, steps);
    PositionsOverRuns(a, steps, name);
    assert SidesOf(PositionOf(Run(a, steps).account.attachments[name], i)) == SidesOver(Of(Run(a, steps).events, name), i);
  }
}
