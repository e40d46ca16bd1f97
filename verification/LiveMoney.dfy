/** The money of live accounts: what fills, events and runs do to profit, cash and cost, at the prices the events carry. */
module LiveMoney {
  import opened Numeric
  import opened Domain
  import opened Ledger
  import opened LiveFills

  /** The account shows the cash and the net positions that go with its profit and its positions. */
  ghost predicate Shows(a: Account) {
    && (forall i :: i in a.positions ==> a.positions[i].Sound())
    && a.cash == a.initialCash + a.realized
    && a.netPositions == map i | i in a.positions :: a.positions[i].Net()
  }

  /** Cash that an increment moves: for the lots it opens, or those it finds to close. */
  function CashOf(p: Position, e: OrderEvent, lots: int): real {
    if lots <= 0 then 0.0 else Paid(e.side, LotsMoved(p, RequestOf(e, lots), lots), e.filledPrice)
  }

  /** Profit it leaves unbooked, because lots it closes carry no cost. */
  function LeftOut(p: Position, e: OrderEvent, lots: int): real {
    Unbooked(p, RequestOf(e, lots), e.filledPrice, lots)
  }

  lemma NoFees(gain: real, lots: int)
    ensures NetOfFees(gain, lots, DEFAULT_COSTS) == gain
  {
  }

  lemma NothingLeftOut(p: Position, e: OrderEvent, lots: int)
    requires lots <= 0
    ensures LeftOut(p, e, lots) == 0.0
  {
  }

  /** One increment: profit grows by the change in open cost, less the cash paid at the event's price and what is left out. */
  lemma IncrementCashFlow(positions: Positions, e: OrderEvent, lots: int)
    requires lots > 0 && forall i :: i in positions ==> positions[i].Sound()
    ensures var p, fill := HeldAt(positions, e.instrument), LiveFill(positions, e, lots);
      && fill.position.Sound()
      && fill.realized == OpenCosts(positions[e.instrument := fill.position]) - OpenCosts(positions)
                          - CashOf(p, e, lots) - LeftOut(p, e, lots)
  {
    hide FillOf, NetOfFees, Unbooked, Paid, LotsMoved, Position.OpenCost, Position.Sound, OpenCosts;
    FlatIsFree();
    var p, fill := HeldAt(positions, e.instrument), LiveFill(positions, e, lots);
    AnyFillCashFlow(p, RequestOf(e, lots), e.filledPrice, lots, DEFAULT_COSTS);
    CostsUpdate(positions, e.instrument, fill.position);
    NoFees(CashFlow(p, fill.position, e.side, LotsMoved(p, RequestOf(e, lots), lots), e.filledPrice)
           - LeftOut(p, e, lots), lots);
  }

  lemma BookingShows(a: Account, e: OrderEvent, lots: int)
    requires Shows(a)
    ensures var b, p := BookInAccount(a, e, lots), HeldAt(a.positions, e.instrument);
      && Shows(b) && b.initialCash == a.initialCash
      && b.realized == a.realized + OpenCosts(b.positions) - OpenCosts(a.positions) - CashOf(p, e, lots) - LeftOut(p, e, lots)
  {
    hide LiveFill, CashOf, LeftOut, OpenCosts, Position.Sound, Position.Net;
    if lots > 0 {
      IncrementCashFlow(a.positions, e, lots);
    } else {
      NoCash(HeldAt(a.positions, e.instrument), e, lots);
      NothingLeftOut(HeldAt(a.positions, e.instrument), e, lots);
    }
  }

  lemma NoCash(p: Position, e: OrderEvent, lots: int)
    requires lots <= 0
    ensures CashOf(p, e, lots) == 0.0
  {
  }

  /** Lots that an event adds on an account. */
  function Increment(rt: Runtime, e: OrderEvent, accountId: string): int
    requires accountId in rt.accounts
  {
    if e.accountId == accountId then Consume(rt.accounts[accountId].applied, e).volume else 0
  }

  function CashOfEvent(rt: Runtime, e: OrderEvent, accountId: string): real
    requires accountId in rt.accounts
  {
    CashOf(HeldAt(rt.accounts[accountId].positions, e.instrument), e, Increment(rt, e, accountId))
  }

  function LeftOutByEvent(rt: Runtime, e: OrderEvent, accountId: string): real
    requires accountId in rt.accounts
  {
    LeftOut(HeldAt(rt.accounts[accountId].positions, e.instrument), e, Increment(rt, e, accountId))
  }

  /** Profit, cash and positions of the account after something that paid `cash` and left `out` unbooked. */
  ghost predicate CashFlows(a: Account, b: Account, cash: real, out: real) {
    && Shows(b) && b.initialCash == a.initialCash
    && b.realized - a.realized == OpenCosts(b.positions) - OpenCosts(a.positions) - cash - out
  }

  lemma EventCashFlow(rt: Runtime, e: OrderEvent, accountId: string)
    requires accountId in rt.accounts && e.accountId in rt.accounts && Shows(rt.accounts[accountId])
    ensures CashFlows(rt.accounts[accountId], ApplyEvent(rt, e).accounts[accountId],
                      CashOfEvent(rt, e, accountId), LeftOutByEvent(rt, e, accountId))
  {
    hide Consume, BookInAccount, BookInAttachment, CashOf, LeftOut, OpenCosts, Position.Sound, Position.Net, AttachmentKey;
    var a, lots := rt.accounts[accountId], Increment(rt, e, accountId);
    if e.accountId == accountId {
      var noted := a.(applied := Consume(a.applied, e).applied);
      BookingShows(noted, e, lots);
    } else {
      NoCash(HeldAt(a.positions, e.instrument), e, lots);
      NothingLeftOut(HeldAt(a.positions, e.instrument), e, lots);
    }
  }

  lemma RollCashFlow(a: Account)
    requires Shows(a)
    ensures CashFlows(a, RollLiveAccount(a), 0.0, 0.0)
  {
    hide Roll, Position.Sound, Position.OpenCost, Position.Net;
    forall i | i in a.positions
      ensures Roll(a.positions[i]).Sound() && Roll(a.positions[i]).OpenCost() == a.positions[i].OpenCost() {
      RollKeepsCost(a.positions[i]);
    }
    assert Costs(RollPositions(a.positions)) == Costs(a.positions);
  }

  // ---- Live runs ----

  /** Cash paid less cash received by an account over a run, each increment at the price of its event. */
  function CashOver(rt: Runtime, steps: seq<LiveStep>, accountId: string): real
    requires accountId in rt.accounts && forall s :: s in steps && s.Report? ==> s.event.accountId in rt.accounts
    decreases |steps|
  {
    if steps == [] then 0.0
    else
      match steps[0]
      case Report(e) => CashOfEvent(rt, e, accountId) + CashOver(ApplyEvent(rt, e), steps[1..], accountId)
      case NewDay => CashOver(RollRuntime(rt), steps[1..], accountId)
  }

  function LeftOutOver(rt: Runtime, steps: seq<LiveStep>, accountId: string): real
    requires accountId in rt.accounts && forall s :: s in steps && s.Report? ==> s.event.accountId in rt.accounts
    decreases |steps|
  {
    if steps == [] then 0.0
    else
      match steps[0]
      case Report(e) => LeftOutByEvent(rt, e, accountId) + LeftOutOver(ApplyEvent(rt, e), steps[1..], accountId)
      case NewDay => LeftOutOver(RollRuntime(rt), steps[1..], accountId)
  }

  lemma FlowsOn(a: Account, b: Account, c: Account, cash: real, more: real, out: real, further: real)
    requires CashFlows(a, b, cash, out) && CashFlows(b, c, more, further)
    ensures CashFlows(a, c, cash + more, out + further)
  {
    hide Shows, OpenCosts;
  }

  /** The cash-flow identity of live accounts, over every run of events in whatever order and repetition, covered or not, and
      day rolls: profit is the change in open cost less the cash that the increments moved at the prices of their events,
      less what closes of lots without a cost left unbooked; and cash is initial cash plus profit. */
  lemma {:induction false} LiveCashFlow(rt: Runtime, steps: seq<LiveStep>, accountId: string)
    requires accountId in rt.accounts && forall s :: s in steps && s.Report? ==> s.event.accountId in rt.accounts
    requires Shows(rt.accounts[accountId])
    ensures accountId in LiveRun(rt, steps).accounts
    ensures CashFlows(rt.accounts[accountId], LiveRun(rt, steps).accounts[accountId],
                      CashOver(rt, steps, accountId), LeftOutOver(rt, steps, accountId))
    decreases |steps|
  {
    hide CashOfEvent, LeftOutByEvent, ApplyEvent, RollRuntime, CashFlows;
    if steps == [] {
      StandsStill(rt.accounts[accountId]);
    } else {
      var next := if steps[0].Report? then ApplyEvent(rt, steps[0].event) else RollRuntime(rt);
      StepCashFlow(rt, steps[0], accountId);
      LiveCashFlow(next, steps[1..], accountId);
      FlowsOn(rt.accounts[accountId], next.accounts[accountId], LiveRun(next, steps[1..]).accounts[accountId],
              if steps[0].Report? then CashOfEvent(rt, steps[0].event, accountId) else 0.0,
              CashOver(next, steps[1..], accountId),
              if steps[0].Report? then LeftOutByEvent(rt, steps[0].event, accountId) else 0.0,
              LeftOutOver(next, steps[1..], accountId));
    }
  }

  lemma StandsStill(a: Account)
    requires Shows(a)
    ensures CashFlows(a, a, 0.0, 0.0)
  {
  }

  lemma StepCashFlow(rt: Runtime, s: LiveStep, accountId: string)
    requires accountId in rt.accounts && (s.Report? ==> s.event.accountId in rt.accounts)
    requires Shows(rt.accounts[accountId])
    ensures var next := if s.Report? then ApplyEvent(rt, s.event) else RollRuntime(rt);
      && next.accounts.Keys == rt.accounts.Keys && Shows(next.accounts[accountId])
      && CashFlows(rt.accounts[accountId], next.accounts[accountId],
                   if s.Report? then CashOfEvent(rt, s.event, accountId) else 0.0,
                   if s.Report? then LeftOutByEvent(rt, s.event, accountId) else 0.0)
  {
    hide Consume, BookInAccount, BookInAttachment, CashOfEvent, LeftOutByEvent, OpenCosts, Position.Sound, Position.Net,
      RollLiveAccount, AttachmentKey, RollPositions;
    if s.Report? {
      EventCashFlow(rt, s.event, accountId);
    } else {
      RollCashFlow(rt.accounts[accountId]);
    }
  }

  // ---- Account and strategy ----

  lemma OpenMovesCost(positions: Positions, e: OrderEvent, lots: int)
    requires lots > 0 && e.offset.Open? && forall i :: i in positions ==> positions[i].Sound()
    ensures OpenCosts(positions[e.instrument := LiveFill(positions, e, lots).position]) - OpenCosts(positions)
         == Paid(e.side, lots, e.filledPrice)
  {
    hide OpenCosts, Paid, Notional, WeightedAveragePrice, NetOfFees;
    NoFees(0.0, lots);
    IncrementCashFlow(positions, e, lots);
  }

  /** An open adds to the open cost of the account and of its strategy alike: its increment at the price of its event. */
  lemma OpenCostsMoveAlike(rt: Runtime, e: OrderEvent)
    requires e.accountId in rt.accounts && e.offset.Open?
    requires AttachmentKey(e.strategyId, e.accountId) in rt.attachments
    requires var account, own := rt.accounts[e.accountId], rt.attachments[AttachmentKey(e.strategyId, e.accountId)];
      && (forall i :: i in account.positions ==> account.positions[i].Sound())
      && (forall i :: i in own.positions ==> own.positions[i].Sound())
    ensures var after, key := ApplyEvent(rt, e), AttachmentKey(e.strategyId, e.accountId);
      var paid := Paid(e.side, Increment(rt, e, e.accountId), e.filledPrice);
      && OpenCosts(after.accounts[e.accountId].positions) - OpenCosts(rt.accounts[e.accountId].positions) == paid
      && OpenCosts(after.attachments[key].positions) - OpenCosts(rt.attachments[key].positions) == paid
  {
    hide Consume, LiveFill, OpenCosts, Position.Sound, Position.Net, AttachmentKey, Paid;
    var lots := Increment(rt, e, e.accountId);
    if lots > 0 {
      OpenMovesCost(rt.accounts[e.accountId].positions, e, lots);
      OpenMovesCost(rt.attachments[AttachmentKey(e.strategyId, e.accountId)].positions, e, lots);
    } else {
      NothingPaid(e.side, lots, e.filledPrice);
    }
  }

  lemma NothingPaid(side: Side, lots: int, price: real)
    ensures lots == 0 ==> Paid(side, lots, price) == 0.0
  {
  }
}
