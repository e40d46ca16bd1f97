/** What one attachment keeps, operation by operation: its money agrees with the fills it reported, and its orders with
    the submissions it received. A trace is the sequence of events the attachment has emitted. */
module BacktestBooks {
  import opened Numeric
  import opened Domain
  import opened Ledger
  import opened Matcher
  import opened Backtest

  // ---- Tallies of a trace ----

  /** The event reports an execution; in a backtest its volume is the increment. */
  predicate Traded(e: OrderEvent) {
    (e.status.Filled? || e.status.PartiallyFilled?) && e.filledVolume > 0
  }

  function LastOf(trace: seq<OrderEvent>): OrderEvent
    requires trace != []
  {
    trace[|trace| - 1]
  }

  /** Cash paid for buys less cash received for sells. */
  function PaidOver(trace: seq<OrderEvent>): real {
    if trace == [] then 0.0
    else
      var e := LastOf(trace);
      PaidOver(trace[..|trace| - 1]) + if Traded(e) then Paid(e.side, e.filledVolume, e.filledPrice) else 0.0
  }

  function VolumeOver(trace: seq<OrderEvent>): int {
    if trace == [] then 0
    else VolumeOver(trace[..|trace| - 1]) + if Traded(LastOf(trace)) then LastOf(trace).filledVolume else 0
  }

  /** Lots opened by executions. */
  function OpenVolumeOver(trace: seq<OrderEvent>): int {
    if trace == [] then 0
    else
      OpenVolumeOver(trace[..|trace| - 1])
      + if Traded(LastOf(trace)) && LastOf(trace).offset.Open? then LastOf(trace).filledVolume else 0
  }

  /** Long and short lots. */
  datatype Sides = Sides(long: int, short: int)
  {
    function Plus(other: Sides): Sides { Sides(long + other.long, short + other.short) }
  }

  function SidesOf(p: Position): Sides {
    Sides(p.Long(), p.Short())
  }

  /** What the executions in an instrument leave open: buys open long and close short lots, sells the reverse. */
  function SidesOver(trace: seq<OrderEvent>, instrument: string): Sides {
    if trace == [] then Sides(0, 0)
    else SidesOver(trace[..|trace| - 1], instrument).Plus(SidesOfEvent(LastOf(trace), instrument))
  }

  function SidesOfEvent(e: OrderEvent, instrument: string): Sides {
    if Traded(e) && e.instrument == instrument then SidesOfFill(e.side, e.offset, e.filledVolume) else Sides(0, 0)
  }

  function SidesOfFill(side: Side, offset: Offset, lots: int): Sides {
    match (side, offset.Open?)
    case (Buy, true) => Sides(lots, 0)
    case (Sell, true) => Sides(0, lots)
    case (Buy, false) => Sides(0, -lots)
    case (Sell, false) => Sides(-lots, 0)
  }

  /** The events that ended an order, in order. */
  function Endings(trace: seq<OrderEvent>): seq<OrderEvent> {
    if trace == [] then []
    else Endings(trace[..|trace| - 1]) + if IsTerminal(LastOf(trace).status) then [LastOf(trace)] else []
  }

  /** How many events carry an execution. */
  function Executions(events: seq<OrderEvent>): nat {
    if events == [] then 0
    else Executions(events[..|events| - 1]) + if LastOf(events).filledVolume > 0 then 1 else 0
  }

  function SubmittedIds(trace: seq<OrderEvent>): set<string> {
    if trace == [] then {}
    else SubmittedIds(trace[..|trace| - 1]) + if LastOf(trace).status.Submitted? then {LastOf(trace).orderId} else {}
  }

  function Submissions(trace: seq<OrderEvent>): nat {
    if trace == [] then 0
    else Submissions(trace[..|trace| - 1]) + if LastOf(trace).status.Submitted? then 1 else 0
  }

  /** Every lot was opened at a positive price. */
  predicate OpensPriced(trace: seq<OrderEvent>) {
    forall i :: 0 <= i < |trace| && Traded(trace[i]) && trace[i].offset.Open? ==> trace[i].filledPrice > 0.0
  }

  lemma TallyOne(trace: seq<OrderEvent>, e: OrderEvent)
    ensures var longer := trace + [e];
      && PaidOver(longer) == PaidOver(trace) + (if Traded(e) then Paid(e.side, e.filledVolume, e.filledPrice) else 0.0)
      && VolumeOver(longer) == VolumeOver(trace) + (if Traded(e) then e.filledVolume else 0)
      && (forall i :: SidesOver(longer, i) == SidesOver(trace, i).Plus(SidesOfEvent(e, i)))
      && OpenVolumeOver(longer) == OpenVolumeOver(trace) + (if Traded(e) && e.offset.Open? then e.filledVolume else 0)
      && SubmittedIds(longer) == SubmittedIds(trace) + (if e.status.Submitted? then {e.orderId} else {})
      && Submissions(longer) == Submissions(trace) + (if e.status.Submitted? then 1 else 0)
      && (OpensPriced(longer) ==> OpensPriced(trace) && (Traded(e) && e.offset.Open? ==> e.filledPrice > 0.0))
  {
    var longer := trace + [e];
    assert longer[..|trace|] == trace && LastOf(longer) == e;
    if OpensPriced(longer) {
      assert longer[|trace|] == e;
      forall i | 0 <= i < |trace| && Traded(trace[i]) && trace[i].offset.Open? ensures trace[i].filledPrice > 0.0 {
        assert longer[i] == trace[i];
      }
    }
  }

  // ---- Money ----

  ghost function OpenCostOf(a: Attachment): real {
    OpenCosts(a.positions)
  }

  /** The cash-flow identity: profit is open cost less cash paid and what was left unbooked, times the multiplier, less
      commission. */
  ghost predicate CashFlowHolds(a: Attachment, trace: seq<OrderEvent>) {
    && (forall i :: i in a.positions ==> a.positions[i].Sound())
    && a.pnl == NetOfFees(OpenCostOf(a) - PaidOver(trace) - a.unbooked, VolumeOver(trace), a.costs)
  }

  /** All lots carry a cost, and nothing has been left unbooked. */
  ghost predicate AllCosted(a: Attachment) {
    (forall i :: i in a.positions ==> a.positions[i].Costed()) && a.unbooked == 0.0
  }

  ghost predicate Money(a: Attachment, trace: seq<OrderEvent>) {
    && (forall i :: i in a.positions ==> a.positions[i].NonNegative())
    && (forall i :: SidesOf(PositionOf(a, i)) == SidesOver(trace, i))
    && a.filledVolume == VolumeOver(trace) && a.filledOpenVolume == OpenVolumeOver(trace)
    && CashFlowHolds(a, trace)
    && (OpensPriced(trace) ==> AllCosted(a))
  }

  /** Same positions, profit and volume. */
  predicate SameMoney(a: Attachment, b: Attachment) {
    a.positions == b.positions && a.pnl == b.pnl && a.filledVolume == b.filledVolume && a.costs == b.costs
    && a.unbooked == b.unbooked && a.filledOpenVolume == b.filledOpenVolume
  }

  lemma MoneyIgnores(a: Attachment, b: Attachment, trace: seq<OrderEvent>, e: OrderEvent)
    requires Money(a, trace) && SameMoney(a, b) && !Traded(e)
    ensures Money(b, trace + [e])
  {
    hide SidesOf, SidesOver, CashFlowHolds, OpensPriced, PositionOf, Position.NonNegative, VolumeOver, OpenVolumeOver;
    TallyOne(trace, e);
    CashFlowIgnores(a, b, trace, e);
    forall i ensures SidesOf(PositionOf(b, i)) == SidesOver(trace + [e], i) {
      SidesIgnore(a, b, trace, e, i);
    }
  }

  lemma CashFlowIgnores(a: Attachment, b: Attachment, trace: seq<OrderEvent>, e: OrderEvent)
    requires CashFlowHolds(a, trace) && SameMoney(a, b) && !Traded(e)
    ensures CashFlowHolds(b, trace + [e])
  {
    hide NetOfFees, Position.Sound, OpenCosts, SidesOver, PaidOver, VolumeOver, OpenVolumeOver, OpensPriced;
    TallyOne(trace, e);
  }

  lemma SidesIgnore(a: Attachment, b: Attachment, trace: seq<OrderEvent>, e: OrderEvent, i: string)
    requires SidesOf(PositionOf(a, i)) == SidesOver(trace, i) && SameMoney(a, b) && !Traded(e)
    ensures SidesOf(PositionOf(b, i)) == SidesOver(trace + [e], i)
  {
    hide SidesOf, SidesOver, PaidOver, VolumeOver, OpenVolumeOver, OpensPriced;
    TallyOne(trace, e);
    assert SidesOver(trace + [e], i) == SidesOver(trace, i).Plus(SidesOfEvent(e, i));
  }

  lemma TouchKeepsMoney(a: Attachment, instrument: string, trace: seq<OrderEvent>)
    requires Money(a, trace)
    ensures Money(Touch(a, instrument), trace)
  {
    hide NetOfFees, Position.OpenCost, Position.Sound, Position.Costed, Position.NonNegative, SidesOf;
    FlatIsFree();
    CostsUpdate(a.positions, instrument, PositionOf(a, instrument));
    forall i ensures PositionOf(Touch(a, instrument), i) == PositionOf(a, i) {
    }
  }

  /** The event that reports a fill. */
  predicate Reports(e: OrderEvent, r: OrderRequest, price: real, quantity: int) {
    && (e.status.Filled? || e.status.PartiallyFilled?)
    && e.side == r.side && e.offset == r.offset && e.instrument == r.instrument
    && e.filledVolume == quantity && e.filledPrice == price
  }

  /** A fill that the position admits keeps the books. */
  lemma FillKeepsMoney(a: Attachment, r: OrderRequest, price: real, quantity: int, trace: seq<OrderEvent>, e: OrderEvent)
    requires Money(a, trace) && Reports(e, r, price, quantity)
    requires quantity > 0 ==> Admits(PositionOf(a, r.instrument), r, quantity)
    ensures Money(BookFill(a, r, price, quantity), trace + [e])
  {
    hide BookFill, Admits, SidesOf, SidesOver, PositionOf, CashFlowHolds, AllCosted, OpensPriced, Position.NonNegative;
    FillKeepsSides(a, r, price, quantity, trace, e);
    FillKeepsCash(a, r, price, quantity, trace, e);
    FillKeepsVolumes(a, r, price, quantity, trace, e);
    if OpensPriced(trace + [e]) {
      TallyOne(trace, e);
      FillKeepsCosts(a, r, price, quantity, trace);
    }
  }

  lemma FillKeepsVolumes(a: Attachment, r: OrderRequest, price: real, quantity: int, trace: seq<OrderEvent>, e: OrderEvent)
    requires Reports(e, r, price, quantity)
    requires a.filledVolume == VolumeOver(trace) && a.filledOpenVolume == OpenVolumeOver(trace)
    ensures var after := BookFill(a, r, price, quantity);
      after.filledVolume == VolumeOver(trace + [e]) && after.filledOpenVolume == OpenVolumeOver(trace + [e])
  {
    hide FillOf, Unbooked, PositionOf, VolumeOver, OpenVolumeOver, SidesOver, OpensPriced;
    TallyOne(trace, e);
  }

  lemma FillKeepsSides(a: Attachment, r: OrderRequest, price: real, quantity: int, trace: seq<OrderEvent>, e: OrderEvent)
    requires Reports(e, r, price, quantity) && (forall i :: SidesOf(PositionOf(a, i)) == SidesOver(trace, i))
    requires (forall i :: i in a.positions ==> a.positions[i].NonNegative())
    requires quantity > 0 ==> Admits(PositionOf(a, r.instrument), r, quantity)
    ensures var after := BookFill(a, r, price, quantity);
      && (forall i :: i in after.positions ==> after.positions[i].NonNegative())
      && forall i :: SidesOf(PositionOf(after, i)) == SidesOver(trace + [e], i)
  {
    hide FillOf, Admits, Unbooked, Position.NonNegative, SidesOf, SidesOver;
    FlatIsCounted();
    FillKeepsCounts(PositionOf(a, r.instrument), r, price, quantity, a.costs);
    forall i ensures SidesOf(PositionOf(BookFill(a, r, price, quantity), i)) == SidesOver(trace + [e], i) {
      FillKeepsSidesAt(a, r, price, quantity, trace, e, i);
    }
  }

  lemma FillKeepsSidesAt(a: Attachment, r: OrderRequest, price: real, quantity: int, trace: seq<OrderEvent>, e: OrderEvent,
                         i: string)
    requires Reports(e, r, price, quantity) && SidesOf(PositionOf(a, i)) == SidesOver(trace, i)
    requires PositionOf(a, r.instrument).NonNegative() && (quantity > 0 ==> Admits(PositionOf(a, r.instrument), r, quantity))
    ensures SidesOf(PositionOf(BookFill(a, r, price, quantity), i)) == SidesOver(trace + [e], i)
  {
    hide FillOf, Admits, Unbooked, Position.NonNegative, SidesOf, SidesOver, PaidOver, VolumeOver, OpenVolumeOver;
    FillKeepsCounts(PositionOf(a, r.instrument), r, price, quantity, a.costs);
    TallyOne(trace, e);
    assert SidesOver(trace + [e], i) == SidesOver(trace, i).Plus(SidesOfEvent(e, i));
  }

  lemma FlatIsCounted()
    ensures FLAT.NonNegative()
  {
  }

  lemma FillKeepsCounts(p: Position, r: OrderRequest, price: real, quantity: int, costs: CostModel)
    requires p.NonNegative() && (quantity > 0 ==> Admits(p, r, quantity))
    ensures var after := FillOf(p, r, price, quantity, costs).position;
      after.NonNegative() && SidesOf(after) == SidesOf(p).Plus(SidesOfFill(r.side, r.offset, Max(0, quantity)))
  {
    hide Notional, NetOfFees, WeightedAveragePrice, ClosesYesterdayByDefault;
    if quantity > 0 && !r.offset.Open? {
      CloseIsExact(p, r, price, quantity, costs);
    }
  }

  lemma FillKeepsCash(a: Attachment, r: OrderRequest, price: real, quantity: int, trace: seq<OrderEvent>, e: OrderEvent)
    requires CashFlowHolds(a, trace) && Reports(e, r, price, quantity)
    requires quantity > 0 ==> Admits(PositionOf(a, r.instrument), r, quantity)
    ensures CashFlowHolds(BookFill(a, r, price, quantity), trace + [e])
  {
    hide Notional, NetOfFees, Paid, Admits, Unbooked, FillOf, Position.OpenCost, Position.Sound, OpensPriced;
    var p, after := PositionOf(a, r.instrument), BookFill(a, r, price, quantity);
    var fill, left := FillOf(p, r, price, quantity, a.costs), Unbooked(p, r, price, quantity);
    FlatIsFree();
    TallyOne(trace, e);
    CostsUpdate(a.positions, r.instrument, fill.position);
    if quantity > 0 {
      FillCashFlow(p, r, price, quantity, a.costs);
      var change := CashFlow(p, fill.position, r.side, quantity, price) - left;
      NetOfFeesSum(OpenCostOf(a) - PaidOver(trace) - a.unbooked, change, VolumeOver(trace), quantity, a.costs);
      assert OpenCostOf(after) - PaidOver(trace + [e]) - after.unbooked
          == OpenCostOf(a) - PaidOver(trace) - a.unbooked + change;
    } else {
      NothingFilled(p, r, price, quantity, a.costs);
    }
  }

  lemma NothingFilled(p: Position, r: OrderRequest, price: real, quantity: int, costs: CostModel)
    requires quantity <= 0
    ensures FillOf(p, r, price, quantity, costs) == Fill(p, 0.0) && Unbooked(p, r, price, quantity) == 0.0
  {
  }

  lemma FillKeepsCosts(a: Attachment, r: OrderRequest, price: real, quantity: int, trace: seq<OrderEvent>)
    requires CashFlowHolds(a, trace) && AllCosted(a)
    requires quantity > 0 ==> Admits(PositionOf(a, r.instrument), r, quantity) && (r.offset.Open? ==> price > 0.0)
    ensures AllCosted(BookFill(a, r, price, quantity))
  {
    hide NetOfFees, Paid, Admits, Unbooked, FillOf, Position.OpenCost, Position.Sound, Position.Costed;
    FlatIsFree();
    if quantity > 0 {
      CostedBooksEverything(PositionOf(a, r.instrument), r, price, quantity, a.costs);
    } else {
      NothingFilled(PositionOf(a, r.instrument), r, price, quantity, a.costs);
    }
  }

  /** The day roll keeps the books: it moves lots between buckets, not money. */
  lemma RollKeepsMoney(a: Attachment, trace: seq<OrderEvent>)
    requires Money(a, trace)
    ensures Money(RollAttachment(a), trace)
  {
    hide NetOfFees, Paid, Position.OpenCost, Position.Sound, Position.Costed, Position.NonNegative, Roll, SidesOf;
    var after := RollAttachment(a);
    RollKeepsSides(a);
    forall i | i in a.positions
      ensures Roll(a.positions[i]).Sound() && Roll(a.positions[i]).OpenCost() == a.positions[i].OpenCost()
      ensures a.positions[i].Costed() ==> Roll(a.positions[i]).Costed() {
      RollKeepsCost(a.positions[i]);
    }
    assert Costs(after.positions) == Costs(a.positions);
  }

  lemma RollKeepsSides(a: Attachment)
    ensures forall i :: i in a.positions && a.positions[i].NonNegative() ==> Roll(a.positions[i]).NonNegative()
    ensures forall i :: SidesOf(PositionOf(RollAttachment(a), i)) == SidesOf(PositionOf(a, i))
  {
    hide Roll, SidesOf, Position.NonNegative;
    forall i ensures i in a.positions && a.positions[i].NonNegative() ==> Roll(a.positions[i]).NonNegative()
      ensures SidesOf(PositionOf(RollAttachment(a), i)) == SidesOf(PositionOf(a, i)) {
      RollKeepsLots(PositionOf(a, i));
    }
  }

  lemma RollKeepsLots(p: Position)
    ensures SidesOf(Roll(p)) == SidesOf(p) && (p.NonNegative() ==> Roll(p).NonNegative())
  {
    hide WeightedAveragePrice;
  }

  // ---- Orders ----

  function IdsOf(orders: seq<PendingOrder>): (ids: seq<string>)
    ensures |ids| == |orders|
  {
    seq(|orders|, i requires 0 <= i < |orders| => orders[i].orderId)
  }

  function IdsOfEvents(events: seq<OrderEvent>): (ids: seq<string>)
    ensures |ids| == |events|
  {
    seq(|events|, i requires 0 <= i < |events| => events[i].orderId)
  }

  predicate NoRepeats(ids: seq<string>) {
    forall i, j :: 0 <= i < j < |ids| ==> ids[i] != ids[j]
  }

  function Members(ids: seq<string>): set<string> {
    set id | id in ids
  }

  /** A live order of the attachment: lots are conserved, and the open snapshot carries its fill. */
  predicate Tracked(open: map<string, OrderSnapshot>, name: string, o: PendingOrder) {
    && o.request.strategyId == name
    && o.filled >= 0 && o.remaining + o.filled == o.request.volume
    && (o.request.volume > 0 ==> o.remaining > 0)
    && o.orderId in open
    && open[o.orderId].filledVolume == o.filled && open[o.orderId].requestedVolume == o.request.volume
  }

  ghost predicate AllTracked(open: map<string, OrderSnapshot>, name: string, live: seq<PendingOrder>) {
    forall i :: 0 <= i < |live| ==> Tracked(open, name, live[i])
  }

  /** The open ids are those of the live orders; with the closed ids they make up the submitted ids, without overlap. */
  predicate Partition(live: set<string>, open: set<string>, closed: set<string>, submitted: set<string>) {
    live == open && closed !! open && closed + open == submitted
  }

  lemma PartitionSubmitted(live: set<string>, open: set<string>, closed: set<string>, submitted: set<string>, id: string)
    requires Partition(live, open, closed, submitted) && id !in submitted
    ensures id !in live && id !in open && id !in closed
    ensures Partition(live + {id}, open + {id}, closed, submitted + {id})
    ensures Partition(live, open, closed + {id}, submitted + {id})
  {
  }

  lemma PartitionClosed(live: set<string>, open: set<string>, closed: set<string>, submitted: set<string>, id: string)
    requires Partition(live, open, closed, submitted) && id in open
    ensures id !in closed
    ensures Partition(live - {id}, open - {id}, closed + {id}, submitted)
  {
  }

  /** `live` are the scheduled and pending orders. Every submission is in exactly one place: live or closed. */
  ghost predicate Orders(a: Attachment, name: string, live: seq<PendingOrder>, trace: seq<OrderEvent>) {
    && AllTracked(a.openOrders, name, live)
    && NoRepeats(IdsOf(live)) && NoRepeats(IdsOfEvents(a.closedOrders))
    && Partition(Members(IdsOf(live)), a.openOrders.Keys, Members(IdsOfEvents(a.closedOrders)), SubmittedIds(trace))
    && a.closedOrders == Endings(trace) && |a.closedOrders| == a.closedCount && a.tradeCount == Executions(a.closedOrders)
    && a.closedCount + |a.openOrders| == Submissions(trace)
  }

  predicate SameOrders(a: Attachment, b: Attachment) {
    && a.openOrders == b.openOrders && a.closedOrders == b.closedOrders && a.closedCount == b.closedCount
    && a.tradeCount == b.tradeCount
  }

  lemma OrdersIgnore(a: Attachment, b: Attachment, name: string, live: seq<PendingOrder>, trace: seq<OrderEvent>,
                     e: OrderEvent)
    requires Orders(a, name, live, trace) && SameOrders(a, b) && !e.status.Submitted? && !IsTerminal(e.status)
    ensures Orders(b, name, live, trace + [e])
  {
    hide Tracked, NoRepeats, Endings, Executions;
    SubmissionOne(trace, e);
    NothingAdded(Endings(trace));
  }

  /** Putting a fresh id among distinct ones keeps them distinct. */
  lemma InsertId(before: seq<string>, id: string, after: seq<string>)
    requires NoRepeats(before + after) && id !in Members(before + after)
    ensures NoRepeats(before + [id] + after)
    ensures Members(before + [id] + after) == Members(before + after) + {id}
  {
    var rest, longer := before + after, before + [id] + after;
    forall i, j | 0 <= i < j < |longer| ensures longer[i] != longer[j] {
      var x, y := if i < |before| then i else i - 1, if j < |before| then j else j - 1;
      if i == |before| {
        assert rest[y] in Members(rest);
      } else if j == |before| {
        assert rest[x] in Members(rest);
      } else {
        assert longer[i] == rest[x] && longer[j] == rest[y] && x < y;
      }
    }
    forall x ensures x in longer <==> x in Members(rest) + {id} {
    }
  }

  /** Taking one id out of the middle keeps the others, distinct. */
  lemma RemoveId(before: seq<string>, id: string, after: seq<string>)
    requires NoRepeats(before + [id] + after)
    ensures NoRepeats(before + after) && Members(before + after) == Members(before + [id] + after) - {id}
  {
    var all, rest := before + [id] + after, before + after;
    forall i, j | 0 <= i < j < |rest| ensures rest[i] != rest[j] {
      var x, y := if i < |before| then i else i + 1, if j < |before| then j else j + 1;
      assert all[x] == rest[i] && all[y] == rest[j];
    }
    forall x ensures x in rest <==> x in all && x != id {
      if x in rest {
        var i :| 0 <= i < |rest| && rest[i] == x;
        assert all[if i < |before| then i else i + 1] == x && all[|before|] == id;
      }
    }
  }

  lemma Erase<V>(m: map<string, V>, id: string)
    ensures (m - {id}).Keys == m.Keys - {id}
    ensures |m - {id}| == |m| - (if id in m then 1 else 0)
    ensures id !in m ==> m - {id} == m
  {
    assert |(m - {id}).Keys| == |m - {id}| && |m.Keys| == |m|;
    if id !in m {
      assert m.Keys - {id} == m.Keys;
    }
  }

  lemma SubmissionOne(trace: seq<OrderEvent>, e: OrderEvent)
    ensures SubmittedIds(trace + [e]) == SubmittedIds(trace) + (if e.status.Submitted? then {e.orderId} else {})
    ensures Submissions(trace + [e]) == Submissions(trace) + (if e.status.Submitted? then 1 else 0)
    ensures Endings(trace + [e]) == Endings(trace) + (if IsTerminal(e.status) then [e] else [])
  {
    TallyOne(trace, e);
    assert (trace + [e])[..|trace|] == trace && LastOf(trace + [e]) == e;
  }

  lemma ExecutionsOne(events: seq<OrderEvent>, e: OrderEvent)
    ensures Executions(events + [e]) == Executions(events) + (if e.filledVolume > 0 then 1 else 0)
  {
    assert (events + [e])[..|events|] == events;
  }

  lemma MembersHave(ids: seq<string>, i: int)
    requires 0 <= i < |ids|
    ensures ids[i] in Members(ids)
  {
  }

  lemma IdsOfJoin(a: seq<PendingOrder>, b: seq<PendingOrder>)
    ensures IdsOf(a + b) == IdsOf(a) + IdsOf(b)
  {
  }

  lemma IdsOfSplit(before: seq<PendingOrder>, o: PendingOrder, after: seq<PendingOrder>)
    ensures IdsOf(before + [o] + after) == IdsOf(before) + [o.orderId] + IdsOf(after)
    ensures IdsOf(before + after) == IdsOf(before) + IdsOf(after)
  {
  }

  lemma EventIdsAppend(events: seq<OrderEvent>, e: OrderEvent)
    ensures IdsOfEvents(events + [e]) == IdsOfEvents(events) + [e.orderId]
  {
  }

  /** The closed side of the book after one more order closes. */
  lemma RecordClosed(a: Attachment, e: OrderEvent)
    requires NoRepeats(IdsOfEvents(a.closedOrders)) && e.orderId !in Members(IdsOfEvents(a.closedOrders))
    ensures var after := CloseOrder(a, e).closedOrders;
      && NoRepeats(IdsOfEvents(after)) && |after| == |a.closedOrders| + 1
      && Members(IdsOfEvents(after)) == Members(IdsOfEvents(a.closedOrders)) + {e.orderId}
  {
    EventIdsAppend(a.closedOrders, e);
    NothingAfter(IdsOfEvents(a.closedOrders), e.orderId);
    InsertId(IdsOfEvents(a.closedOrders), e.orderId, []);
  }

  lemma NothingAfter<T>(s: seq<T>, x: T)
    ensures s + [] == s && s + [x] + [] == s + [x]
  {
  }

  lemma TrackedWithNew(open: map<string, OrderSnapshot>, name: string, before: seq<PendingOrder>, o: PendingOrder,
                       after: seq<PendingOrder>)
    requires AllTracked(open, name, before + after) && o.orderId !in open
    requires o.request.strategyId == name && o.filled == 0 && o.remaining == o.request.volume
    ensures AllTracked(open[o.orderId := SnapshotOf(o)], name, before + [o] + after)
  {
    hide Tracked, SnapshotOf;
    var rest, live := before + after, before + [o] + after;
    NewIsTracked(open, name, o);
    forall i | 0 <= i < |live| ensures Tracked(open[o.orderId := SnapshotOf(o)], name, live[i]) {
      if i != |before| {
        var j := if i < |before| then i else i - 1;
        assert live[i] == rest[j];
        StaysTracked(open, name, rest[j], o.orderId, SnapshotOf(o));
      }
    }
  }

  /** A submission event makes room for one more order, which then goes live... */
  lemma AddLive(a: Attachment, b: Attachment, name: string, before: seq<PendingOrder>, o: PendingOrder,
                after: seq<PendingOrder>, trace: seq<OrderEvent>, submitted: OrderEvent, accepted: OrderEvent)
    requires Orders(a, name, before + after, trace) && o.orderId !in SubmittedIds(trace)
    requires submitted.status.Submitted? && submitted.orderId == o.orderId && accepted.status.Accepted?
    requires b.openOrders == a.openOrders[o.orderId := SnapshotOf(o)]
    requires b.closedOrders == a.closedOrders && b.closedCount == a.closedCount && b.tradeCount == a.tradeCount
    requires o.request.strategyId == name && o.filled == 0 && o.remaining == o.request.volume
    ensures Orders(b, name, before + [o] + after, trace + [submitted] + [accepted])
  {
    hide NoRepeats, Members, IdsOf, IdsOfEvents, SubmittedIds, Submissions, Partition, AllTracked, SnapshotOf, Endings,
      Executions;
    NothingAdded(Endings(trace));
    SubmissionOne(trace, submitted);
    SubmissionOne(trace + [submitted], accepted);
    PartitionSubmitted(Members(IdsOf(before + after)), a.openOrders.Keys, Members(IdsOfEvents(a.closedOrders)),
                       SubmittedIds(trace), o.orderId);
    Extend(a.openOrders, o.orderId, SnapshotOf(o));
    IdsOfSplit(before, o, after);
    InsertId(IdsOf(before), o.orderId, IdsOf(after));
    TrackedWithNew(a.openOrders, name, before, o, after);
  }

  lemma NewIsTracked(open: map<string, OrderSnapshot>, name: string, o: PendingOrder)
    requires o.request.strategyId == name && o.filled == 0 && o.remaining == o.request.volume
    ensures Tracked(open[o.orderId := SnapshotOf(o)], name, o)
  {
  }

  lemma StaysTracked(open: map<string, OrderSnapshot>, name: string, o: PendingOrder, id: string, snapshot: OrderSnapshot)
    requires Tracked(open, name, o) && id !in open
    ensures Tracked(open[id := snapshot], name, o)
  {
  }

  lemma Extend<V>(m: map<string, V>, id: string, v: V)
    requires id !in m
    ensures m[id := v].Keys == m.Keys + {id} && |m[id := v]| == |m| + 1
  {
    Erase(m[id := v], id);
    assert m[id := v] - {id} == m;
  }

  /** ... or is closed at once. */
  lemma CloseNew(a: Attachment, name: string, live: seq<PendingOrder>,
                 trace: seq<OrderEvent>, submitted: OrderEvent, e: OrderEvent)
    requires Orders(a, name, live, trace) && e.orderId !in SubmittedIds(trace)
    requires submitted.status.Submitted? && submitted.orderId == e.orderId && IsTerminal(e.status)
    ensures Orders(CloseOrder(a, e), name, live, trace + [submitted] + [e])
  {
    hide AllTracked, NoRepeats, Members, IdsOf, IdsOfEvents, SubmittedIds, Submissions, Partition, Endings, Executions;
    NothingAdded(Endings(trace));
    ExecutionsOne(a.closedOrders, e);
    SubmissionOne(trace, submitted);
    SubmissionOne(trace + [submitted], e);
    PartitionSubmitted(Members(IdsOf(live)), a.openOrders.Keys, Members(IdsOfEvents(a.closedOrders)),
                       SubmittedIds(trace), e.orderId);
    RecordClosed(a, e);
    Erase(a.openOrders, e.orderId);
  }

  lemma TrackedWithout(open: map<string, OrderSnapshot>, name: string, before: seq<PendingOrder>, o: PendingOrder,
                       after: seq<PendingOrder>)
    requires AllTracked(open, name, before + [o] + after) && o.orderId !in Members(IdsOf(before + after))
    ensures AllTracked(open - {o.orderId}, name, before + after)
  {
    hide IdsOf, Members, Tracked;
    var live, rest := before + [o] + after, before + after;
    forall i | 0 <= i < |rest| ensures Tracked(open - {o.orderId}, name, rest[i]) {
      var j := if i < |before| then i else i + 1;
      assert rest[i] == live[j] && Tracked(open, name, live[j]);
      StaysApart(rest, i);
      TrackedApart(open, name, rest[i], o.orderId);
    }
  }

  lemma TrackedApart(open: map<string, OrderSnapshot>, name: string, o: PendingOrder, id: string)
    requires Tracked(open, name, o) && o.orderId != id
    ensures Tracked(open - {id}, name, o)
  {
  }

  lemma IsOpen(open: map<string, OrderSnapshot>, name: string, before: seq<PendingOrder>, o: PendingOrder,
               after: seq<PendingOrder>)
    requires AllTracked(open, name, before + [o] + after)
    ensures o.orderId in open
  {
    assert (before + [o] + after)[|before|] == o && Tracked(open, name, (before + [o] + after)[|before|]);
  }

  /** A live order leaves the book and is recorded as closed. */
  lemma CloseLive(a: Attachment, name: string, before: seq<PendingOrder>, o: PendingOrder, after: seq<PendingOrder>,
                  trace: seq<OrderEvent>, e: OrderEvent)
    requires Orders(a, name, before + [o] + after, trace) && e.orderId == o.orderId && IsTerminal(e.status)
    ensures Orders(CloseOrder(a, e), name, before + after, trace + [e])
  {
    hide NoRepeats, Members, IdsOf, IdsOfEvents, SubmittedIds, Submissions, Partition, AllTracked, Endings, Executions;
    SubmissionOne(trace, e);
    ExecutionsOne(a.closedOrders, e);
    IdsOfSplit(before, o, after);
    RemoveId(IdsOf(before), o.orderId, IdsOf(after));
    IsOpen(a.openOrders, name, before, o, after);
    PartitionClosed(Members(IdsOf(before + [o] + after)), a.openOrders.Keys, Members(IdsOfEvents(a.closedOrders)),
                    SubmittedIds(trace), o.orderId);
    Erase(a.openOrders, o.orderId);
    RecordClosed(a, e);
    TrackedWithout(a.openOrders, name, before, o, after);
  }

  lemma StaysApart(orders: seq<PendingOrder>, i: int)
    requires 0 <= i < |orders|
    ensures orders[i].orderId in Members(IdsOf(orders))
  {
    MembersHave(IdsOf(orders), i);
  }

  /** A live order changes its progress but not its identity, and its snapshot with it. */
  lemma UpdateLive(a: Attachment, b: Attachment, name: string, before: seq<PendingOrder>, o: PendingOrder,
                   o': PendingOrder, after: seq<PendingOrder>, trace: seq<OrderEvent>)
    requires Orders(a, name, before + [o] + after, trace) && o'.orderId == o.orderId
    requires b.closedOrders == a.closedOrders && b.closedCount == a.closedCount && b.tradeCount == a.tradeCount
    requires b.openOrders.Keys == a.openOrders.Keys
    requires forall id :: id in a.openOrders && id != o.orderId ==> b.openOrders[id] == a.openOrders[id]
    requires Tracked(b.openOrders, name, o')
    ensures Orders(b, name, before + [o'] + after, trace)
  {
    hide Members, IdsOfEvents, SubmittedIds, Submissions, Partition;
    var live, live' := before + [o] + after, before + [o'] + after;
    IdsOfSplit(before, o, after);
    IdsOfSplit(before, o', after);
    forall i | 0 <= i < |live'| ensures Tracked(b.openOrders, name, live'[i]) {
      if i != |before| {
        assert live'[i] == live[i] && Tracked(a.openOrders, name, live[i]);
        DistinctAt(IdsOf(live), i, |before|);
      }
    }
    assert |a.openOrders| == |a.openOrders.Keys| && |b.openOrders| == |b.openOrders.Keys|;
  }

  lemma DistinctAt(ids: seq<string>, i: int, j: int)
    requires NoRepeats(ids) && 0 <= i < |ids| && 0 <= j < |ids| && i != j
    ensures ids[i] != ids[j]
  {
  }

  /** The order of live orders does not matter: one may go to the end, its activation time cleared. */
  lemma MoveToEnd(a: Attachment, name: string, before: seq<PendingOrder>, o: PendingOrder, o': PendingOrder,
                  after: seq<PendingOrder>, trace: seq<OrderEvent>)
    requires Orders(a, name, before + [o] + after, trace)
    requires o' == o.(request := o.request.(activateAtMs := 0))
    ensures Orders(a, name, before + after + [o'], trace)
  {
    hide NoRepeats, Members, IdsOf, IdsOfEvents, SubmittedIds, Submissions, Partition;
    var live, rest, moved := before + [o] + after, before + after, before + after + [o'];
    IdsOfSplit(before, o, after);
    RemoveId(IdsOf(before), o.orderId, IdsOf(after));
    IdsOfSplit(rest, o', []);
    NothingAfter(rest, o');
    MembersHave(IdsOf(live), |before|);
    PutBack(Members(IdsOf(live)), o.orderId);
    NothingAfter(IdsOf(rest), o.orderId);
    assert IdsOf([]) == [];
    InsertId(IdsOf(rest), o.orderId, []);
    forall i | 0 <= i < |moved| ensures Tracked(a.openOrders, name, moved[i]) {
      var j := if i < |before| then i else if i < |rest| then i + 1 else |before|;
      assert Tracked(a.openOrders, name, live[j]);
    }
  }

  lemma PutBack(s: set<string>, id: string)
    requires id in s
    ensures s - {id} + {id} == s && id !in s - {id}
  {
  }

  // ---- The operations ----

  /** Everything an attachment keeps about the events it has emitted. */
  ghost predicate Books(a: Attachment, name: string, trace: seq<OrderEvent>) {
    Money(a, trace) && Orders(a, name, a.scheduled + a.pending, trace)
  }

  /** A fate that `SubmitTo` can settle: fills are admitted, and orders that stay are the one submitted. */
  predicate Settles(a: Attachment, r: OrderRequest, orderId: string, fate: Fate) {
    match fate
    case Refused => true
    case FilledAt(_) => CloseRequestIsValid(PositionOf(a, r.instrument), r)
    case Scheduled(o) => o.request == r && o.orderId == orderId && o.filled == 0 && o.remaining == r.volume
    case Rests(o) => o.request == r && o.orderId == orderId && o.filled == 0 && o.remaining == r.volume
  }

  lemma FateSettles(a: Attachment, r: OrderRequest, orderId: string, m: Market)
    ensures Settles(a, r, orderId, FateOf(a, r, orderId, m))
  {
    hide CloseRequestIsValid, SyntheticRestingFill, CanFillImmediately;
  }

  lemma SettleKeepsBooks(a: Attachment, name: string, r: OrderRequest, orderId: string, fate: Fate,
                         trace: seq<OrderEvent>, timestamp: string)
    requires Books(a, name, trace) && r.strategyId == name && orderId !in SubmittedIds(trace)
    requires Settles(a, r, orderId, fate)
    ensures var out := Settle(a, r, orderId, fate, timestamp);
      var submitted := MakeEvent(r, orderId, Submitted, 0, 0.0, timestamp);
      |out.events| == 1 && out.events[0].strategyId == name
      && Books(out.attachment, name, trace + [submitted] + out.events)
  {
    hide Money, Orders, SubmittedIds, FillOf, CloseRequestIsValid, Closeable;
    var submitted := MakeEvent(r, orderId, Submitted, 0, 0.0, timestamp);
    var out := Settle(a, r, orderId, fate, timestamp);
    var e, live, b := out.events[0], a.scheduled + a.pending, out.attachment;
    MoneyIgnores(a, a, trace, submitted);
    match fate
    case Refused =>
      MoneyIgnores(a, b, trace + [submitted], e);
      CloseNew(a, name, live, trace, submitted, e);
    case FilledAt(price) =>
      AdmitsValid(PositionOf(a, r.instrument), r);
      FillKeepsMoney(a, r, price, r.volume, trace + [submitted], e);
      var booked := BookFill(a, r, price, r.volume);
      SameMoneyIsEnough(booked, b, trace + [submitted] + [e]);
      SameOrdersAreEnough(a, booked, name, live, trace);
      CloseNew(booked, name, live, trace, submitted, e);
    case Scheduled(o) =>
      MoneyIgnores(a, b, trace + [submitted], e);
      AddLive(a, b, name, a.scheduled, o, a.pending, trace, submitted, e);
    case Rests(o) =>
      MoneyIgnores(a, b, trace + [submitted], e);
      NothingAfter(live, o);
      AddLive(a, b, name, live, o, [], trace, submitted, e);
      assert b.scheduled + b.pending == live + [o];
  }

  lemma AdmitsValid(p: Position, r: OrderRequest)
    requires CloseRequestIsValid(p, r)
    ensures Admits(p, r, r.volume)
  {
  }

  lemma SameMoneyIsEnough(a: Attachment, b: Attachment, trace: seq<OrderEvent>)
    requires Money(a, trace) && SameMoney(a, b)
    ensures Money(b, trace)
  {
    hide NetOfFees, Position.Sound, Position.NonNegative, SidesOf;
    forall i ensures PositionOf(b, i) == PositionOf(a, i) {
    }
  }

  lemma SameOrdersAreEnough(a: Attachment, b: Attachment, name: string, live: seq<PendingOrder>, trace: seq<OrderEvent>)
    requires Orders(a, name, live, trace) && SameOrders(a, b)
    ensures Orders(b, name, live, trace)
  {
    hide NoRepeats, Partition, Tracked;
  }

  /** Submission keeps the books, whatever becomes of the order. */
  lemma SubmitKeepsBooks(a: Attachment, name: string, r: OrderRequest, orderId: string, m: Market,
                         trace: seq<OrderEvent>)
    requires Books(a, name, trace) && r.strategyId == name && orderId !in SubmittedIds(trace)
    ensures var out := SubmitTo(a, r, orderId, m);
      && Books(out.attachment, name, trace + out.events)
      && |out.events| == 2 && out.events[0].strategyId == name && out.events[1].strategyId == name
      && SubmittedIds(trace + out.events) == SubmittedIds(trace) + {orderId}
  {
    hide Money, Orders, SubmittedIds, FateOf, Settle, CloseRequestIsValid;
    var touched, out := Touch(a, r.instrument), SubmitTo(a, r, orderId, m);
    TouchKeepsMoney(a, r.instrument, trace);
    SameOrdersAreEnough(a, touched, name, a.scheduled + a.pending, trace);
    FateSettles(a, r, orderId, m);
    var fate := FateOf(a, r, orderId, m);
    assert PositionOf(touched, r.instrument) == PositionOf(a, r.instrument);
    SettleKeepsBooks(touched, name, r, orderId, fate, trace, m.tick.timestamp);
    var settled := Settle(touched, r, orderId, fate, m.tick.timestamp);
    var submitted := MakeEvent(r, orderId, Submitted, 0, 0.0, m.tick.timestamp);
    assert trace + [submitted] + settled.events == trace + out.events;
    SubmissionOne(trace, submitted);
    SubmissionOne(trace + [submitted], settled.events[0]);
    SettleStatus(touched, r, orderId, fate, m.tick.timestamp);
    assert settled.events == [settled.events[0]];
  }

  lemma SettleStatus(a: Attachment, r: OrderRequest, orderId: string, fate: Fate, timestamp: string)
    ensures var events := Settle(a, r, orderId, fate, timestamp).events;
      |events| == 1 && !events[0].status.Submitted?
  {
    hide BookFill;
  }

  /** The books after one order was served, with the others untouched. */
  ghost predicate Served(a: Attachment, s: Serviced, name: string, before: seq<PendingOrder>, after: seq<PendingOrder>,
                         trace: seq<OrderEvent>)
  {
    && Money(s.attachment, trace + s.events) && Orders(s.attachment, name, before + s.kept + after, trace + s.events)
    && From(s.events, name) && s.attachment.scheduled == a.scheduled && s.attachment.pending == a.pending
  }

  /** Serving one order keeps the books. */
  lemma ServiceMatchKeepsBooks(a: Attachment, name: string, before: seq<PendingOrder>, o: PendingOrder,
                               after: seq<PendingOrder>, p: PricedMatch, trace: seq<OrderEvent>, timestamp: string)
    requires Money(a, trace) && Orders(a, name, before + [o] + after, trace)
    requires p.order == o.(queueAhead := p.order.queueAhead, activated := p.order.activated)
    requires 0 <= p.volume && (p.volume > 0 ==> p.volume <= o.remaining)
    ensures Served(a, ServiceMatch(a, p, timestamp), name, before, after, trace)
  {
    hide Money, Orders, ServiceMatch, Served, CloseRequestIsValid;
    if p.volume <= 0 {
      WaitingKeepsBooks(a, name, before, o, after, p, trace, timestamp);
    } else if !CloseRequestIsValid(PositionOf(a, o.request.instrument), o.request.(volume := o.remaining)) {
      RejectionKeepsBooks(a, name, before, o, after, p, trace, timestamp);
    } else {
      ExecutionKeepsBooks(a, name, before, o, after, p, trace, timestamp);
    }
  }

  lemma LiveOrderIsTracked(a: Attachment, name: string, before: seq<PendingOrder>, o: PendingOrder,
                           after: seq<PendingOrder>, trace: seq<OrderEvent>)
    requires Orders(a, name, before + [o] + after, trace)
    ensures Tracked(a.openOrders, name, o)
  {
    hide Tracked, SubmittedIds, Submissions, Partition, NoRepeats, IdsOf, Members;
    assert (before + [o] + after)[|before|] == o;
  }

  lemma WaitingKeepsBooks(a: Attachment, name: string, before: seq<PendingOrder>, o: PendingOrder,
                          after: seq<PendingOrder>, p: PricedMatch, trace: seq<OrderEvent>, timestamp: string)
    requires Money(a, trace) && Orders(a, name, before + [o] + after, trace)
    requires p.order == o.(queueAhead := p.order.queueAhead, activated := p.order.activated) && p.volume <= 0
    ensures Served(a, ServiceMatch(a, p, timestamp), name, before, after, trace)
  {
    hide Money, Orders;
    LiveOrderIsTracked(a, name, before, o, after, trace);
    UpdateLive(a, a, name, before, o, p.order, after, trace);
    NothingAdded(trace);
  }

  lemma RejectionKeepsBooks(a: Attachment, name: string, before: seq<PendingOrder>, o: PendingOrder,
                            after: seq<PendingOrder>, p: PricedMatch, trace: seq<OrderEvent>, timestamp: string)
    requires Money(a, trace) && Orders(a, name, before + [o] + after, trace)
    requires p.order == o.(queueAhead := p.order.queueAhead, activated := p.order.activated) && p.volume > 0
    requires !CloseRequestIsValid(PositionOf(a, o.request.instrument), o.request.(volume := o.remaining))
    ensures Served(a, ServiceMatch(a, p, timestamp), name, before, after, trace)
  {
    hide Money, Orders, CloseRequestIsValid, PositionOf;
    var s, touched := ServiceMatch(a, p, timestamp), Touch(a, o.request.instrument);
    LiveOrderIsTracked(a, name, before, o, after, trace);
    TouchKeepsMoney(a, o.request.instrument, trace);
    MoneyIgnores(touched, s.attachment, trace, s.events[0]);
    SameOrdersAreEnough(a, touched, name, before + [o] + after, trace);
    CloseLive(touched, name, before, o, after, trace, s.events[0]);
    NothingAdded(before);
  }

  lemma ExecutionKeepsBooks(a: Attachment, name: string, before: seq<PendingOrder>, o: PendingOrder,
                            after: seq<PendingOrder>, p: PricedMatch, trace: seq<OrderEvent>, timestamp: string)
    requires Money(a, trace) && Orders(a, name, before + [o] + after, trace)
    requires p.order == o.(queueAhead := p.order.queueAhead, activated := p.order.activated)
    requires 0 < p.volume <= o.remaining
    requires CloseRequestIsValid(PositionOf(a, o.request.instrument), o.request.(volume := o.remaining))
    ensures Served(a, ServiceMatch(a, p, timestamp), name, before, after, trace)
  {
    hide Money, Orders, FillOf, Unbooked, CloseRequestIsValid, PositionOf;
    var s, r := ServiceMatch(a, p, timestamp), o.request;
    var booked, e := BookFill(a, r, p.price, p.volume), s.events[0];
    LiveOrderIsTracked(a, name, before, o, after, trace);
    AdmitsPart(PositionOf(a, r.instrument), r, o.remaining, p.volume);
    FillKeepsMoney(a, r, p.price, p.volume, trace, e);
    SameMoneyIsEnough(booked, s.attachment, trace + [e]);
    SameOrdersAreEnough(a, booked, name, before + [o] + after, trace);
    if p.volume == o.remaining {
      CloseLive(booked, name, before, o, after, trace, e);
      NothingAdded(before);
    } else {
      UpdateLive(booked, s.attachment, name, before, o, s.kept[0], after, trace);
      OrdersIgnore(s.attachment, s.attachment, name, before + s.kept + after, trace, e);
    }
  }

  lemma AdmitsPart(p: Position, r: OrderRequest, remaining: int, quantity: int)
    requires CloseRequestIsValid(p, r.(volume := remaining)) && quantity <= remaining
    ensures Admits(p, r, quantity)
  {
    hide ClosesYesterdayByDefault;
  }

  predicate From(events: seq<OrderEvent>, name: string) {
    forall i :: 0 <= i < |events| ==> events[i].strategyId == name && !events[i].status.Submitted?
  }

  lemma {:induction false} ServicePrefix(a: Attachment, name: string, k: nat, m: Market, trace: seq<OrderEvent>)
    requires Books(a, name, trace) && k <= |a.pending|
    ensures var s := ServiceOrders(a, a.pending[..k], m);
      && Money(s.attachment, trace + s.events)
      && Orders(s.attachment, name, a.scheduled + s.kept + a.pending[k..], trace + s.events)
      && From(s.events, name)
      && s.attachment.scheduled == a.scheduled && s.attachment.pending == a.pending
  {
    hide Money, Orders, MatchOf, ServiceMatch, ServiceOrders;
    NothingServed(a, m);
    if k == 0 {
      NothingAdded(a.scheduled);
      NothingAdded(trace);
    } else {
      ServicePrefix(a, name, k - 1, m, trace);
      var o, s := a.pending[k - 1], ServiceOrders(a, a.pending[..k - 1], m);
      OneMoreServed(a, k, m);
      Associates(a.scheduled + s.kept, [o], a.pending[k..]);
      var p := MatchOf(s.attachment, o, m);
      ServiceMatchKeepsBooks(s.attachment, name, a.scheduled + s.kept, o, a.pending[k..], p, trace + s.events,
                             m.tick.timestamp);
      var last := ServiceMatch(s.attachment, p, m.tick.timestamp);
      Associates(a.scheduled, s.kept, last.kept);
      Associates(trace, s.events, last.events);
    }
  }

  lemma NothingServed(a: Attachment, m: Market)
    ensures a.pending[..0] == [] && a.pending[0..] == a.pending && ServiceOrders(a, [], m) == Serviced(a, [], [])
  {
  }

  lemma OneMoreServed(a: Attachment, k: nat, m: Market)
    requires 0 < k <= |a.pending|
    ensures a.pending[k - 1..] == [a.pending[k - 1]] + a.pending[k..]
    ensures var s := ServiceOrders(a, a.pending[..k - 1], m);
      var last := ServiceMatch(s.attachment, MatchOf(s.attachment, a.pending[k - 1], m), m.tick.timestamp);
      ServiceOrders(a, a.pending[..k], m) == Serviced(last.attachment, s.kept + last.kept, s.events + last.events)
  {
    hide MatchOf, ServiceMatch;
    assert a.pending[..k][..k - 1] == a.pending[..k - 1];
  }

  /** A tick's service of all pending orders keeps the books. */
  lemma ServiceKeepsBooks(a: Attachment, name: string, m: Market, trace: seq<OrderEvent>)
    requires Books(a, name, trace)
    ensures var out := ServiceAttachment(a, m);
      Books(out.attachment, name, trace + out.events) && From(out.events, name)
  {
    hide Money, Orders, ServiceOrders;
    ServicePrefix(a, name, |a.pending|, m, trace);
    assert a.pending[..|a.pending|] == a.pending && a.pending[|a.pending|..] == [];
    var s, out := ServiceOrders(a, a.pending, m), ServiceAttachment(a, m);
    assert a.scheduled + s.kept + [] == out.attachment.scheduled + out.attachment.pending;
    SameMoneyIsEnough(s.attachment, out.attachment, trace + s.events);
    SameOrdersAreEnough(s.attachment, out.attachment, name, a.scheduled + s.kept, trace + s.events);
  }

  lemma CancelKeepsBooks(a: Attachment, name: string, clientOrderId: string, timestamp: string, trace: seq<OrderEvent>)
    requires Books(a, name, trace)
    ensures var out := CancelIn(a, clientOrderId, timestamp);
      Books(out.attachment, name, trace + out.events) && From(out.events, name)
  {
    hide Money, Orders, From, CancelEvent, CloseOrder;
    var s, p := Find(a.scheduled, clientOrderId), Find(a.pending, clientOrderId);
    var b := CancelIn(a, clientOrderId, timestamp).attachment;
    if s < |a.scheduled| {
      TakeOut([], a.scheduled, s, a.pending);
      StaysQueued(a, CancelEvent(a.scheduled[s], timestamp));
      CancelAt(a, b, name, a.scheduled[..s], a.scheduled[s], a.scheduled[s + 1..] + a.pending, trace, timestamp);
    } else if p < |a.pending| {
      TakeOut(a.scheduled, a.pending, p, []);
      StaysQueued(a, CancelEvent(a.pending[p], timestamp));
      CancelAt(a, b, name, a.scheduled + a.pending[..p], a.pending[p], a.pending[p + 1..], trace, timestamp);
    } else {
      assert trace + [] == trace;
      NoEvents(name);
    }
  }

  lemma TakeOut(left: seq<PendingOrder>, orders: seq<PendingOrder>, i: nat, right: seq<PendingOrder>)
    requires i < |orders|
    ensures left + orders + right == (left + orders[..i]) + [orders[i]] + (orders[i + 1..] + right)
    ensures left + Without(orders, i) + right == (left + orders[..i]) + (orders[i + 1..] + right)
    ensures [] + orders == orders && orders + [] == orders && [] + orders[..i] == orders[..i]
    ensures orders[i + 1..] + [] == orders[i + 1..] && left + orders + [] == left + orders
    ensures [] + Without(orders, i) == Without(orders, i) && left + Without(orders, i) + [] == left + Without(orders, i)
  {
  }

  lemma StaysQueued(a: Attachment, e: OrderEvent)
    ensures CloseOrder(a, e).scheduled == a.scheduled && CloseOrder(a, e).pending == a.pending
  {
  }

  lemma NoEvents(name: string)
    ensures From([], name)
  {
  }

  /** The order between `before` and `after` is withdrawn, leaving `b`. */
  lemma CancelAt(a: Attachment, b: Attachment, name: string, before: seq<PendingOrder>, o: PendingOrder,
                 after: seq<PendingOrder>, trace: seq<OrderEvent>, timestamp: string)
    requires Books(a, name, trace) && a.scheduled + a.pending == before + [o] + after
    requires b == CloseOrder(a, CancelEvent(o, timestamp)).(scheduled := b.scheduled, pending := b.pending)
    requires b.scheduled + b.pending == before + after
    ensures Books(b, name, trace + [CancelEvent(o, timestamp)]) && From([CancelEvent(o, timestamp)], name)
  {
    hide Money, SubmittedIds, Submissions, Partition, NoRepeats, IdsOf, Members, IdsOfEvents;
    var e := CancelEvent(o, timestamp);
    assert (before + [o] + after)[|before|] == o;
    assert Tracked(a.openOrders, name, (before + [o] + after)[|before|]);
    MoneyIgnores(a, b, trace, e);
    CloseLive(a, name, before, o, after, trace, e);
    SameOrdersAreEnough(CloseOrder(a, e), b, name, before + after, trace + [e]);
  }

  lemma {:induction false} ActivatePrefix(a: Attachment, name: string, k: nat, tick: MarketTick, trace: seq<OrderEvent>)
    requires Orders(a, name, a.scheduled + a.pending, trace) && k <= |a.scheduled|
    ensures Orders(a, name, StillScheduled(a.scheduled[..k], tick) + a.scheduled[k..]
                            + a.pending + Due(a.scheduled[..k], tick), trace)
  {
    hide Orders, IsDue;
    if k == 0 {
      assert [] + a.scheduled[0..] + a.pending + [] == a.scheduled + a.pending;
    } else {
      ActivatePrefix(a, name, k - 1, tick, trace);
      var o, before, first := a.scheduled[k - 1], a.scheduled[..k - 1], a.scheduled[..k];
      var still, due, rest := StillScheduled(before, tick), Due(before, tick), a.scheduled[k..];
      assert first[..k - 1] == before && first[k - 1] == o;
      assert a.scheduled[k - 1..] == [o] + rest;
      Regroup(still, o, rest, a.pending, due);
      var active := o.(request := o.request.(activateAtMs := 0));
      if IsDue(o, tick) {
        MoveToEnd(a, name, still, o, active, rest + a.pending + due, trace);
        assert StillScheduled(first, tick) == still && Due(first, tick) == due + [active];
        assert still + (rest + a.pending + due) + [active] == still + rest + a.pending + (due + [active]);
      } else {
        assert StillScheduled(first, tick) == still + [o] && Due(first, tick) == due;
      }
    }
  }

  lemma Regroup<T>(a: seq<T>, x: T, b: seq<T>, c: seq<T>, d: seq<T>)
    ensures a + ([x] + b) + c + d == a + [x] + (b + c + d)
    ensures a + ([x] + b) + c + d == (a + [x]) + b + c + d
  {
  }

  lemma ActivateKeepsBooks(a: Attachment, name: string, tick: MarketTick, trace: seq<OrderEvent>)
    requires Books(a, name, trace)
    ensures Books(ActivateIn(a, tick), name, trace)
  {
    hide Money, Orders, StillScheduled, Due;
    var b := ActivateIn(a, tick);
    ActivatePrefix(a, name, |a.scheduled|, tick, trace);
    assert a.scheduled[..|a.scheduled|] == a.scheduled && a.scheduled[|a.scheduled|..] == [];
    assert b.scheduled + [] + a.pending + Due(a.scheduled, tick) == b.scheduled + b.pending;
    SameMoneyIsEnough(a, b, trace);
    SameOrdersAreEnough(a, b, name, b.scheduled + b.pending, trace);
  }

  lemma RollKeepsBooks(a: Attachment, name: string, trace: seq<OrderEvent>)
    requires Books(a, name, trace)
    ensures Books(RollAttachment(a), name, trace)
  {
    hide Money, Orders;
    RollKeepsMoney(a, trace);
    SameOrdersAreEnough(a, RollAttachment(a), name, a.scheduled + a.pending, trace);
  }
}
