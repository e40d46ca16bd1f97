/** Live order events: cumulative fills become deltas that are applied once, to the account and to the strategy. */
module LiveFills {
  import opened Numeric
  import opened Text
  import opened Domain
  import opened Ledger

  // ---- Which order an event belongs to ----

  function FillDate(timestamp: string): string {
    var t := Trim(timestamp);
    if |t| >= 10 && t[4] == '-' && t[7] == '-' then t[..10] else if |t| >= 8 then t[..8] else ""
  }

  /** `live_fill_tracking_key`. */
  function TrackingKey(e: OrderEvent): string {
    var owner := e.accountId + "|" + e.strategyId + "|";
    if e.clientOrderId != "" && e.clientOrderId != e.orderId then "client:" + owner + e.clientOrderId
    else if e.orderId != "" && e.signalTimeMs > 0 then
      "order-signal:" + owner + e.orderId + "|" + Decimal(e.signalTimeMs)
    else if e.orderId != "" then "order-date:" + owner + FillDate(e.timestamp) + "|" + e.orderId
    else if e.sourceOrderId != "" then
      "trade:" + owner + e.sourceOrderId + "|" + e.instrument + "|" + FillDate(e.timestamp)
    else ""
  }

  type Applied = map<string, int>

  function AppliedAt(applied: Applied, key: string): int {
    if key in applied then applied[key] else 0
  }

  datatype Delta = Delta(applied: Applied, volume: int)

  /** `consume_live_fill_delta`. */
  function Consume(applied: Applied, e: OrderEvent): (d: Delta)
    ensures d.volume >= 0
  {
    var key := TrackingKey(e);
    if !IsTradeFill(e) then Delta(applied, 0)
    else if key == "" then Delta(applied, Max(0, e.filledVolume))
    else
      var before := AppliedAt(applied, key);
      var cumulative := Max(0, e.filledVolume);
      Delta(applied[key := Max(before, cumulative)], Max(0, cumulative - before))
  }

  predicate FillOfKey(e: OrderEvent, key: string) {
    IsTradeFill(e) && TrackingKey(e) == key
  }

  /** What a sequence of events applies in all to one order. */
  function AppliedBy(applied: Applied, events: seq<OrderEvent>, key: string): int
    decreases |events|
  {
    if events == [] then 0
    else
      var d := Consume(applied, events[0]);
      (if FillOfKey(events[0], key) then d.volume else 0) + AppliedBy(d.applied, events[1..], key)
  }

  /** The largest cumulative fill any of the events reports for the order. */
  function LargestFill(events: seq<OrderEvent>, key: string): (n: int)
    ensures n >= 0
  {
    if events == [] then 0
    else if FillOfKey(events[0], key) then Max(events[0].filledVolume, LargestFill(events[1..], key))
    else LargestFill(events[1..], key)
  }

  /** Volume that a sequence of events applies in all. */
  function AppliedInAll(applied: Applied, events: seq<OrderEvent>): int
    decreases |events|
  {
    if events == [] then 0
    else
      var d := Consume(applied, events[0]);
      d.volume + AppliedInAll(d.applied, events[1..])
  }

  function VolumeFilled(events: seq<OrderEvent>): int {
    if events == [] then 0 else (if IsTradeFill(events[0]) then events[0].filledVolume else 0) + VolumeFilled(events[1..])
  }

  /** Fills that name no order cannot be told apart: each of them is applied whole, and none is recorded. */
  lemma {:induction false} NamelessFillsAllCount(applied: Applied, events: seq<OrderEvent>)
    requires forall e :: e in events ==> TrackingKey(e) == ""
    ensures AppliedInAll(applied, events) == VolumeFilled(events)
    decreases |events|
  {
    hide TrackingKey;
    if events != [] {
      assert TrackingKey(events[0]) == "";
      NamelessFillsAllCount(applied, events[1..]);
    }
  }

  /** However events of an order are interleaved with others, repeated or reordered, what is applied in all takes the
      record from where it was to the largest cumulative fill reported. */
  lemma {:induction false} AppliesUpToLargest(applied: Applied, events: seq<OrderEvent>, key: string)
    requires key != "" && AppliedAt(applied, key) >= 0
    ensures AppliedBy(applied, events, key)
         == Max(AppliedAt(applied, key), LargestFill(events, key)) - AppliedAt(applied, key)
    decreases |events|
  {
    hide TrackingKey;
    if events != [] {
      AppliesUpToLargest(Consume(applied, events[0]).applied, events[1..], key);
    }
  }

  lemma {:induction false} LargestIsLargest(events: seq<OrderEvent>, key: string)
    ensures forall e :: e in events && FillOfKey(e, key) ==> e.filledVolume <= LargestFill(events, key)
    ensures LargestFill(events, key) == 0
            || exists e :: e in events && FillOfKey(e, key) && e.filledVolume == LargestFill(events, key)
  {
    hide FillOfKey;
    if events != [] {
      LargestIsLargest(events[1..], key);
      assert events == [events[0]] + events[1..];
    }
  }

  /** So two deliveries of the same reports, in any order and with any repetition, apply the same total. */
  lemma DeliveryDoesNotMatter(applied: Applied, once: seq<OrderEvent>, again: seq<OrderEvent>, key: string)
    requires key != "" && AppliedAt(applied, key) >= 0
    requires forall e :: e in once <==> e in again
    ensures AppliedBy(applied, once, key) == AppliedBy(applied, again, key)
  {
    hide FillOfKey;
    AppliesUpToLargest(applied, once, key);
    AppliesUpToLargest(applied, again, key);
    LargestIsLargest(once, key);
    LargestIsLargest(again, key);
  }

  // ---- Accounts and attachments ----

  type Positions = map<string, Position>

  function HeldAt(positions: Positions, instrument: string): Position {
    if instrument in positions then positions[instrument] else FLAT
  }

  datatype Account = Account(positions: Positions, applied: Applied, initialCash: real, realized: real, cash: real,
                             netPositions: map<string, int>)

  datatype Attachment = Attachment(accountId: string, strategyId: string, positions: Positions,
                                   openOrders: map<string, OrderSnapshot>, closedOrders: seq<OrderSnapshot>)

  datatype Runtime = Runtime(accounts: map<string, Account>, attachments: map<string, Attachment>)

  /** `telemetry_attachment_key`. */
  function AttachmentKey(strategyId: string, accountId: string): string {
    strategyId + "::" + accountId
  }

  function RequestOf(e: OrderEvent, volume: int): OrderRequest {
    OrderRequest(e.accountId, e.strategyId, e.clientOrderId, e.instrument, e.exchange, e.side, e.offset,
                 Market, e.limitPrice, volume, 0, false, 0.0)
  }

  function LiveFill(positions: Positions, e: OrderEvent, volume: int): Fill {
    FillOf(HeldAt(positions, e.instrument), RequestOf(e, volume), e.filledPrice, volume, DEFAULT_COSTS)
  }

  /** `update_live_snapshot`. */
  function BookInAccount(a: Account, e: OrderEvent, volume: int): Account {
    if volume <= 0 then a
    else
      var fill := LiveFill(a.positions, e, volume);
      a.(positions := a.positions[e.instrument := fill.position],
         realized := a.realized + fill.realized,
         cash := a.initialCash + a.realized + fill.realized,
         netPositions := a.netPositions[e.instrument := fill.position.Net()])
  }

  /** `update_live_attachment`. */
  function BookInAttachment(a: Attachment, e: OrderEvent, volume: int): Attachment {
    var filled := if volume <= 0 then a
                  else a.(positions := a.positions[e.instrument := LiveFill(a.positions, e, volume).position]);
    if IsTerminal(e.status)
    then filled.(openOrders := a.openOrders - {e.orderId}, closedOrders := a.closedOrders + [e])
    else filled.(openOrders := a.openOrders[e.orderId := e])
  }

  /** `apply_live_order_event`. */
  function ApplyEvent(rt: Runtime, e: OrderEvent): Runtime
    requires e.accountId in rt.accounts
  {
    var d := Consume(rt.accounts[e.accountId].applied, e);
    var account := BookInAccount(rt.accounts[e.accountId].(applied := d.applied), e, d.volume);
    var key := AttachmentKey(e.strategyId, e.accountId);
    Runtime(rt.accounts[e.accountId := account],
            if key in rt.attachments
            then rt.attachments[key := BookInAttachment(rt.attachments[key], e, d.volume)]
            else rt.attachments)
  }

  function RollPositions(positions: Positions): Positions {
    map i | i in positions :: Roll(positions[i])
  }

  /** `roll_live_accounts_to_next_trading_day`. */
  function RollRuntime(rt: Runtime): Runtime {
    Runtime(map id | id in rt.accounts :: RollLiveAccount(rt.accounts[id]),
            map k | k in rt.attachments ::
              rt.attachments[k].(positions := RollPositions(rt.attachments[k].positions)))
  }

  function RollLiveAccount(a: Account): Account {
    var rolled := RollPositions(a.positions);
    a.(positions := rolled, netPositions := map i | i in rolled :: rolled[i].Net())
  }

  class LiveRuntime {
    var accounts: map<string, Account>
    var attachments: map<string, Attachment>

    constructor (rt: Runtime)
      ensures Value() == rt
    {
      accounts, attachments := rt.accounts, rt.attachments;
    }

    function Value(): Runtime
      reads this
    {
      Runtime(accounts, attachments)
    }

    /** The volume an event adds, recorded against its order. */
    method ConsumeFillDelta(e: OrderEvent) returns (volume: int)
      requires e.accountId in accounts
      modifies this
      ensures attachments == old(attachments)
      ensures var d := Consume(old(accounts)[e.accountId].applied, e);
        volume == d.volume
        && accounts == old(accounts)[e.accountId := old(accounts)[e.accountId].(applied := d.applied)]
    {
      hide TrackingKey;
      var account := accounts[e.accountId];
      volume := 0;
      if IsTradeFill(e) {
        var key, cumulative := TrackingKey(e), Max(0, e.filledVolume);
        volume := cumulative;
        if key != "" {
          var before := AppliedAt(account.applied, key);
          volume := Max(0, cumulative - before);
          account := account.(applied := account.applied[key := Max(before, cumulative)]);
        }
      }
      accounts := accounts[e.accountId := account];
    }

    method ApplyOrderEvent(e: OrderEvent)
      requires e.accountId in accounts
      modifies this
      ensures Value() == ApplyEvent(old(Value()), e)
    {
      hide Consume, FillOf;
      var volume := ConsumeFillDelta(e);
      var account := accounts[e.accountId];
      if volume > 0 {
        var position := new PositionState(HeldAt(account.positions, e.instrument));
        var profit := position.ApplyFill(RequestOf(e, volume), e.filledPrice, volume, DEFAULT_COSTS);
        account := account.(positions := account.positions[e.instrument := position.Value()],
                            realized := account.realized + profit,
                            cash := account.initialCash + account.realized + profit,
                            netPositions := account.netPositions[e.instrument := position.Value().Net()]);
        accounts := accounts[e.accountId := account];
      }
      var key := AttachmentKey(e.strategyId, e.accountId);
      if key in attachments {
        var attachment := attachments[key];
        if volume > 0 {
          var position := new PositionState(HeldAt(attachment.positions, e.instrument));
          var _ := position.ApplyFill(RequestOf(e, volume), e.filledPrice, volume, DEFAULT_COSTS);
          attachment := attachment.(positions := attachment.positions[e.instrument := position.Value()]);
        }
        if IsTerminal(e.status) {
          attachment := attachment.(openOrders := attachment.openOrders - {e.orderId},
                                    closedOrders := attachment.closedOrders + [e]);
        } else {
          attachment := attachment.(openOrders := attachment.openOrders[e.orderId := e]);
        }
        attachments := attachments[key := attachment];
      }
    }

    method RollToNextTradingDay()
      modifies this
      ensures Value() == RollRuntime(old(Value()))
    {
      accounts := map id | id in accounts :: RollLiveAccount(accounts[id]);
      attachments := map k | k in attachments ::
        attachments[k].(positions := RollPositions(attachments[k].positions));
    }
  }

  // ---- Agreement of account and strategies ----

  /** What can be read off a position. */
  datatype Meter = LongToday | LongYesterday | ShortToday | ShortYesterday | LongTotal | ShortTotal

  function Read(p: Position, m: Meter): int {
    match m
    case LongToday => p.longToday.quantity
    case LongYesterday => p.longYesterday.quantity
    case ShortToday => p.shortToday.quantity
    case ShortYesterday => p.shortYesterday.quantity
    case LongTotal => p.Long()
    case ShortTotal => p.Short()
  }

  const BUCKETS := {LongToday, LongYesterday, ShortToday, ShortYesterday}
  const TOTALS := {LongTotal, ShortTotal}

  function Readings(attachments: map<string, Attachment>, accountId: string, i: string, m: Meter): map<string, int> {
    map k | k in attachments && attachments[k].accountId == accountId :: Read(HeldAt(attachments[k].positions, i), m)
  }

  /** For one instrument: the account's reading is the sum over its attachments, on the given meters. */
  ghost predicate Agrees(rt: Runtime, accountId: string, i: string, meters: set<Meter>)
    requires accountId in rt.accounts
  {
    forall m :: m in meters ==>
      Read(HeldAt(rt.accounts[accountId].positions, i), m) == Total(Readings(rt.attachments, accountId, i, m))
  }

  ghost predicate NonNegativeAt(rt: Runtime, accountId: string, i: string)
    requires accountId in rt.accounts
  {
    && HeldAt(rt.accounts[accountId].positions, i).NonNegative()
    && forall k :: k in rt.attachments && rt.attachments[k].accountId == accountId
                   ==> HeldAt(rt.attachments[k].positions, i).NonNegative()
  }

  /** The fill touches a single bucket, the same one whoever holds the lots. */
  predicate SingleBucket(r: OrderRequest) {
    !r.offset.Close? || ClosesYesterdayByDefault(r.exchange)
  }

  predicate PlainClose(r: OrderRequest) {
    r.offset.Open? || (r.offset.Close? && !ClosesYesterdayByDefault(r.exchange))
  }

  /** Yesterday's lots on the side a close works on. */
  function CarriedOver(p: Position, r: OrderRequest): int {
    if r.side.Buy? then p.shortYesterday.quantity else p.longYesterday.quantity
  }

  /** Lots that a fill takes out of yesterday's and out of today's bucket of its side; an open puts lots into today's. */
  datatype Drawn = Drawn(yesterday: int, today: int)

  function DrawnBy(p: Position, r: OrderRequest, quantity: int): Drawn {
    if r.offset.Open? then Drawn(0, -quantity)
    else
      var draw := if r.side.Buy? then DrawFor(p.shortYesterday, p.shortToday, r, quantity)
                  else DrawFor(p.longYesterday, p.longToday, r, quantity);
      Drawn(Lots(draw.yesterday), Lots(draw.today))
  }

  /** What a meter loses by it. */
  function Loss(r: OrderRequest, d: Drawn, m: Meter): int {
    var long := r.offset.Open? == r.side.Buy?;
    match m
    case LongToday => if long then d.today else 0
    case LongYesterday => if long then d.yesterday else 0
    case ShortToday => if !long then d.today else 0
    case ShortYesterday => if !long then d.yesterday else 0
    case LongTotal => if long then d.today + d.yesterday else 0
    case ShortTotal => if !long then d.today + d.yesterday else 0
  }

  lemma FillLoses(p: Position, r: OrderRequest, price: real, quantity: int, m: Meter)
    requires p.NonNegative() && quantity > 0
    ensures var after := FillOf(p, r, price, quantity, DEFAULT_COSTS).position;
      after.NonNegative() && Read(after, m) == Read(p, m) - Loss(r, DrawnBy(p, r, quantity), m)
  {
    hide Notional, NetOfFees, WeightedAveragePrice, ClosesYesterdayByDefault, Gain;
  }

  /** A close draws as much as it can, up to its volume; where it draws from depends on the lots only if it is a plain one
      outside SHFE and INE. */
  lemma WhatIsDrawn(p: Position, r: OrderRequest, quantity: int)
    requires p.NonNegative() && quantity > 0 && !r.offset.Open?
    ensures var d := DrawnBy(p, r, quantity);
      && d.yesterday + d.today == Min(Closeable(p, r), quantity)
      && (r.offset.CloseToday? ==> d.yesterday == 0)
      && (!r.offset.CloseToday? && SingleBucket(r) ==> d.today == 0)
      && (PlainClose(r) ==> d.yesterday == Min(CarriedOver(p, r), quantity))
  {
    hide ClosesYesterdayByDefault;
  }

  /** The event's account is known, and its attachment, if known, belongs to that account. */
  predicate WellAddressed(rt: Runtime, e: OrderEvent) {
    var key := AttachmentKey(e.strategyId, e.accountId);
    e.accountId in rt.accounts && (key in rt.attachments ==> rt.attachments[key].accountId == e.accountId)
  }

  /** The event reaches an attachment, whose own lots cover what it adds. */
  predicate Covered(rt: Runtime, e: OrderEvent)
    requires WellAddressed(rt, e)
  {
    var key := AttachmentKey(e.strategyId, e.accountId);
    var volume := Consume(rt.accounts[e.accountId].applied, e).volume;
    key in rt.attachments
    && (volume > 0
        ==> Admits(HeldAt(rt.attachments[key].positions, e.instrument), RequestOf(e, volume), volume))
  }

  /** What an account and one of its strategies, holding `account` and `own`, must have for a covered fill to move both
      alike. Bucket by bucket: the fill touches a single bucket, or the strategy's own carried-over lots suffice, or nobody
      else has any. In total: the account covers it too. */
  predicate MovesAlike(account: Position, own: Position, r: OrderRequest, quantity: int, meters: set<Meter>) {
    if meters == BUCKETS
    then SingleBucket(r) || CarriedOver(own, r) >= quantity || CarriedOver(account, r) == CarriedOver(own, r)
    else Admits(account, r, quantity)
  }

  predicate Fits(rt: Runtime, e: OrderEvent, meters: set<Meter>)
    requires WellAddressed(rt, e) && AttachmentKey(e.strategyId, e.accountId) in rt.attachments
  {
    var own := rt.attachments[AttachmentKey(e.strategyId, e.accountId)];
    var volume := Consume(rt.accounts[e.accountId].applied, e).volume;
    volume > 0 ==>
      MovesAlike(HeldAt(rt.accounts[e.accountId].positions, e.instrument), HeldAt(own.positions, e.instrument),
                 RequestOf(e, volume), volume, meters)
  }

  /** What an event must satisfy for the agreement on one instrument of one account; others are free. */
  predicate Lawful(rt: Runtime, e: OrderEvent, accountId: string, i: string, meters: set<Meter>) {
    WellAddressed(rt, e)
    && (e.accountId == accountId && e.instrument == i ==> Covered(rt, e) && Fits(rt, e, meters))
  }

  lemma ReadingsUpdate(attachments: map<string, Attachment>, accountId: string, key: string, after: Attachment,
                       i: string, m: Meter)
    requires key in attachments && after.accountId == attachments[key].accountId
    ensures Total(Readings(attachments[key := after], accountId, i, m))
         == Total(Readings(attachments, accountId, i, m))
            + (if after.accountId == accountId
               then Read(HeldAt(after.positions, i), m) - Read(HeldAt(attachments[key].positions, i), m) else 0)
  {
    hide Read, HeldAt;
    var before := Readings(attachments, accountId, i, m);
    if after.accountId == accountId {
      assert Readings(attachments[key := after], accountId, i, m)
          == before[key := Read(HeldAt(after.positions, i), m)];
      TotalUpdate(before, key, Read(HeldAt(after.positions, i), m));
    } else {
      assert Readings(attachments[key := after], accountId, i, m) == before;
    }
  }

  lemma OneAtMostAll(rt: Runtime, accountId: string, key: string, i: string, m: Meter, meters: set<Meter>)
    requires accountId in rt.accounts && key in rt.attachments && rt.attachments[key].accountId == accountId
    requires Agrees(rt, accountId, i, meters) && NonNegativeAt(rt, accountId, i) && m in meters
    ensures Read(HeldAt(rt.attachments[key].positions, i), m) <= Read(HeldAt(rt.accounts[accountId].positions, i), m)
  {
    TotalAtLeast(Readings(rt.attachments, accountId, i, m), key);
  }

  /** What one strategy can close, its account can close too. */
  lemma AccountCovers(rt: Runtime, accountId: string, key: string, i: string, r: OrderRequest, quantity: int,
                      meters: set<Meter>)
    requires accountId in rt.accounts && key in rt.attachments && rt.attachments[key].accountId == accountId
    requires Agrees(rt, accountId, i, meters) && NonNegativeAt(rt, accountId, i)
    requires meters == BUCKETS || (meters == TOTALS && PlainClose(r))
    requires Admits(HeldAt(rt.attachments[key].positions, i), r, quantity)
    ensures Admits(HeldAt(rt.accounts[accountId].positions, i), r, quantity)
  {
    hide ClosesYesterdayByDefault, Agrees, NonNegativeAt;
    if !r.offset.Open? {
      forall m | m in meters
        ensures Read(HeldAt(rt.attachments[key].positions, i), m)
             <= Read(HeldAt(rt.accounts[accountId].positions, i), m) {
        OneAtMostAll(rt, accountId, key, i, m, meters);
      }
      if meters == BUCKETS {
        assert LongToday in meters && LongYesterday in meters && ShortToday in meters && ShortYesterday in meters;
      } else {
        assert LongTotal in meters && ShortTotal in meters;
      }
    }
  }

  /** Booking a fill moves the instrument's meters. */
  lemma BookedReading(positions: Positions, e: OrderEvent, volume: int, m: Meter)
    requires HeldAt(positions, e.instrument).NonNegative() && volume > 0
    ensures var was := HeldAt(positions, e.instrument);
      var after := HeldAt(positions[e.instrument := LiveFill(positions, e, volume).position], e.instrument);
      && Read(after, m) == Read(was, m) - Loss(RequestOf(e, volume), DrawnBy(was, RequestOf(e, volume), volume), m)
      && after.NonNegative()
  {
    hide FillOf, Loss, DrawnBy;
    FillLoses(HeldAt(positions, e.instrument), RequestOf(e, volume), e.filledPrice, volume, m);
  }

  /** For a fill that both cover, or that at least the strategy covers, the meters lose alike exactly if both move alike. */
  lemma LossesAgree(account: Position, own: Position, r: OrderRequest, quantity: int, meters: set<Meter>)
    requires account.NonNegative() && own.NonNegative() && quantity > 0 && Admits(own, r, quantity)
    requires CarriedOver(own, r) <= CarriedOver(account, r) || meters == TOTALS
    requires (meters == BUCKETS && Admits(account, r, quantity)) || meters == TOTALS
    ensures (forall m :: m in meters ==> Loss(r, DrawnBy(account, r, quantity), m) == Loss(r, DrawnBy(own, r, quantity), m))
       <==> MovesAlike(account, own, r, quantity, meters)
  {
    hide DrawnBy, Closeable, ClosesYesterdayByDefault;
    var d, o := DrawnBy(account, r, quantity), DrawnBy(own, r, quantity);
    LossesDetermine(r, d, o);
    if r.offset.Open? {
      OpensMoveAlike(account, own, r, quantity);
    } else {
      WhatIsDrawn(account, r, quantity);
      WhatIsDrawn(own, r, quantity);
    }
  }

  lemma OpensMoveAlike(account: Position, own: Position, r: OrderRequest, quantity: int)
    requires r.offset.Open?
    ensures DrawnBy(account, r, quantity) == DrawnBy(own, r, quantity)
  {
  }

  /** The bucket meters show both parts of a draw, the totals only their sum. */
  lemma LossesDetermine(r: OrderRequest, d: Drawn, o: Drawn)
    ensures (forall m :: m in BUCKETS ==> Loss(r, d, m) == Loss(r, o, m)) <==> d == o
    ensures (forall m :: m in TOTALS ==> Loss(r, d, m) == Loss(r, o, m)) <==> d.today + d.yesterday == o.today + o.yesterday
  {
    assert LongToday in BUCKETS && LongYesterday in BUCKETS && ShortToday in BUCKETS && ShortYesterday in BUCKETS;
    assert LongTotal in TOTALS && ShortTotal in TOTALS;
  }

  /** An event that adds nothing here: another account, another instrument, or no new volume. */
  predicate Elsewhere(rt: Runtime, e: OrderEvent, accountId: string, i: string)
    requires WellAddressed(rt, e)
  {
    e.accountId != accountId || e.instrument != i || Consume(rt.accounts[e.accountId].applied, e).volume == 0
  }

  lemma ElsewhereChangesNothing(rt: Runtime, e: OrderEvent, accountId: string, i: string)
    requires accountId in rt.accounts && WellAddressed(rt, e) && Elsewhere(rt, e, accountId, i)
    ensures var after := ApplyEvent(rt, e);
      && HeldAt(after.accounts[accountId].positions, i) == HeldAt(rt.accounts[accountId].positions, i)
      && after.attachments.Keys == rt.attachments.Keys
      && (forall k :: k in rt.attachments ==>
            && after.attachments[k].accountId == rt.attachments[k].accountId
            && (rt.attachments[k].accountId == accountId
                ==> HeldAt(after.attachments[k].positions, i) == HeldAt(rt.attachments[k].positions, i)))
  {
    hide Consume, LiveFill;
  }

  lemma ElsewhereKeepsAgreement(rt: Runtime, e: OrderEvent, accountId: string, i: string, meters: set<Meter>)
    requires accountId in rt.accounts && WellAddressed(rt, e) && Elsewhere(rt, e, accountId, i)
    requires Agrees(rt, accountId, i, meters) && NonNegativeAt(rt, accountId, i)
    ensures Agrees(ApplyEvent(rt, e), accountId, i, meters) && NonNegativeAt(ApplyEvent(rt, e), accountId, i)
  {
    hide Consume, LiveFill, Read, Position.NonNegative;
    var after := ApplyEvent(rt, e);
    ElsewhereChangesNothing(rt, e, accountId, i);
    forall m ensures Readings(after.attachments, accountId, i, m) == Readings(rt.attachments, accountId, i, m) {
    }
  }

  /** How a fill that adds volume here moves the account's reading and the sum over its attachments. */
  lemma FillMovesBoth(rt: Runtime, e: OrderEvent, accountId: string, i: string, m: Meter)
    requires accountId in rt.accounts && WellAddressed(rt, e) && !Elsewhere(rt, e, accountId, i)
    requires AttachmentKey(e.strategyId, accountId) in rt.attachments && NonNegativeAt(rt, accountId, i)
    ensures var after, volume := ApplyEvent(rt, e), Consume(rt.accounts[accountId].applied, e).volume;
      var r, own := RequestOf(e, volume), HeldAt(rt.attachments[AttachmentKey(e.strategyId, accountId)].positions, i);
      var account := HeldAt(rt.accounts[accountId].positions, i);
      && accountId in after.accounts
      && Read(HeldAt(after.accounts[accountId].positions, i), m)
         == Read(account, m) - Loss(r, DrawnBy(account, r, volume), m)
      && Total(Readings(after.attachments, accountId, i, m))
         == Total(Readings(rt.attachments, accountId, i, m)) - Loss(r, DrawnBy(own, r, volume), m)
      && NonNegativeAt(after, accountId, i)
  {
    hide Consume, LiveFill, Loss, DrawnBy, Read, Position.NonNegative;
    var key, volume := AttachmentKey(e.strategyId, accountId), Consume(rt.accounts[accountId].applied, e).volume;
    var after := ApplyEvent(rt, e);
    ReadingsUpdate(rt.attachments, accountId, key, after.attachments[key], i, m);
    BookedReading(rt.attachments[key].positions, e, volume, m);
    BookedReading(rt.accounts[accountId].positions, e, volume, m);
  }

  /** Whether a covered event keeps account and strategies in agreement is decided by the guard alone: it does exactly if it
      fits. */
  lemma EventKeepsAgreementExactly(rt: Runtime, e: OrderEvent, accountId: string, i: string, meters: set<Meter>)
    requires accountId in rt.accounts && WellAddressed(rt, e) && (meters == BUCKETS || meters == TOTALS)
    requires e.accountId == accountId && e.instrument == i && Covered(rt, e)
    requires Agrees(rt, accountId, i, meters) && NonNegativeAt(rt, accountId, i)
    ensures NonNegativeAt(ApplyEvent(rt, e), accountId, i)
    ensures Agrees(ApplyEvent(rt, e), accountId, i, meters) <==> Fits(rt, e, meters)
  {
    hide Consume, LiveFill, Admits, Loss, DrawnBy, Read, CarriedOver, MovesAlike, Position.NonNegative, ApplyEvent;
    if Elsewhere(rt, e, accountId, i) {
      ElsewhereKeepsAgreement(rt, e, accountId, i, meters);
      NoVolume(rt, e);
    } else {
      var key, volume := AttachmentKey(e.strategyId, accountId), Consume(rt.accounts[accountId].applied, e).volume;
      var r := RequestOf(e, volume);
      var own, account := HeldAt(rt.attachments[key].positions, i), HeldAt(rt.accounts[accountId].positions, i);
      assert volume > 0 by {
        NoVolume(rt, e);
      }
      if meters == BUCKETS {
        AccountCovers(rt, accountId, key, i, r, volume, meters);
        AccountCarriesMore(rt, accountId, key, i, r);
      }
      LossesAgree(account, own, r, volume, meters);
      FillMovesBoth(rt, e, accountId, i, LongTotal);
      var after := ApplyEvent(rt, e);
      forall m
        ensures Read(HeldAt(after.accounts[accountId].positions, i), m)
             == Read(account, m) - Loss(r, DrawnBy(account, r, volume), m)
        ensures Total(Readings(after.attachments, accountId, i, m))
             == Total(Readings(rt.attachments, accountId, i, m)) - Loss(r, DrawnBy(own, r, volume), m) {
        FillMovesBoth(rt, e, accountId, i, m);
      }
    }
  }

  lemma NoVolume(rt: Runtime, e: OrderEvent)
    requires WellAddressed(rt, e)
    ensures Consume(rt.accounts[e.accountId].applied, e).volume >= 0
  {
  }

  lemma AccountCarriesMore(rt: Runtime, accountId: string, key: string, i: string, r: OrderRequest)
    requires accountId in rt.accounts && key in rt.attachments && rt.attachments[key].accountId == accountId
    requires Agrees(rt, accountId, i, BUCKETS) && NonNegativeAt(rt, accountId, i)
    ensures CarriedOver(HeldAt(rt.attachments[key].positions, i), r)
         <= CarriedOver(HeldAt(rt.accounts[accountId].positions, i), r)
  {
    hide Agrees, NonNegativeAt;
    OneAtMostAll(rt, accountId, key, i, if r.side.Buy? then ShortYesterday else LongYesterday, BUCKETS);
  }

  /** A lawful event keeps account and strategies in agreement. */
  lemma EventKeepsAgreement(rt: Runtime, e: OrderEvent, accountId: string, i: string, meters: set<Meter>)
    requires accountId in rt.accounts && Lawful(rt, e, accountId, i, meters) && (meters == BUCKETS || meters == TOTALS)
    requires Agrees(rt, accountId, i, meters) && NonNegativeAt(rt, accountId, i)
    ensures Agrees(ApplyEvent(rt, e), accountId, i, meters) && NonNegativeAt(ApplyEvent(rt, e), accountId, i)
  {
    hide Consume, Agrees, NonNegativeAt, ApplyEvent, Fits;
    if e.accountId == accountId && e.instrument == i {
      EventKeepsAgreementExactly(rt, e, accountId, i, meters);
    } else {
      ElsewhereKeepsAgreement(rt, e, accountId, i, meters);
    }
  }

  // ---- The day roll ----

  lemma RolledAt(positions: Positions, i: string)
    ensures HeldAt(RollPositions(positions), i).longToday.quantity == 0
    ensures HeldAt(RollPositions(positions), i).shortToday.quantity == 0
    ensures HeldAt(RollPositions(positions), i).longYesterday.quantity == HeldAt(positions, i).Long()
    ensures HeldAt(RollPositions(positions), i).shortYesterday.quantity == HeldAt(positions, i).Short()
  {
    hide WeightedAveragePrice;
  }

  /** The meter whose reading a meter takes over at the roll; today's buckets start empty. */
  function TakesOver(m: Meter): Option<Meter> {
    match m
    case LongToday => None
    case ShortToday => None
    case LongYesterday => Some(LongTotal)
    case ShortYesterday => Some(ShortTotal)
    case LongTotal => Some(LongTotal)
    case ShortTotal => Some(ShortTotal)
  }

  lemma RolledReading(rt: Runtime, accountId: string, i: string, m: Meter)
    ensures Total(Readings(RollRuntime(rt).attachments, accountId, i, m))
         == if TakesOver(m).Some? then Total(Readings(rt.attachments, accountId, i, TakesOver(m).value)) else 0
  {
    hide HeldAt, RollPositions;
    var was, now := rt.attachments, RollRuntime(rt).attachments;
    forall k | k in was
      ensures now[k].accountId == was[k].accountId
      ensures Read(HeldAt(now[k].positions, i), m)
           == if TakesOver(m).Some? then Read(HeldAt(was[k].positions, i), TakesOver(m).value) else 0 {
      assert now[k].positions == RollPositions(was[k].positions);
      RolledAt(was[k].positions, i);
    }
    if TakesOver(m).Some? {
      assert Readings(now, accountId, i, m) == Readings(was, accountId, i, TakesOver(m).value);
    } else {
      TotalOfZeros(Readings(now, accountId, i, m));
    }
  }

  lemma BucketsAddUp(attachments: map<string, Attachment>, accountId: string, i: string)
    ensures Total(Readings(attachments, accountId, i, LongTotal))
         == Total(Readings(attachments, accountId, i, LongToday))
            + Total(Readings(attachments, accountId, i, LongYesterday))
    ensures Total(Readings(attachments, accountId, i, ShortTotal))
         == Total(Readings(attachments, accountId, i, ShortToday))
            + Total(Readings(attachments, accountId, i, ShortYesterday))
  {
    hide HeldAt;
    TotalAdds(Readings(attachments, accountId, i, LongToday), Readings(attachments, accountId, i, LongYesterday),
              Readings(attachments, accountId, i, LongTotal));
    TotalAdds(Readings(attachments, accountId, i, ShortToday), Readings(attachments, accountId, i, ShortYesterday),
              Readings(attachments, accountId, i, ShortTotal));
  }

  lemma RolledMeters(rt: Runtime, accountId: string, i: string, m: Meter)
    requires accountId in rt.accounts
    requires m in TOTALS ==> Agrees(rt, accountId, i, TOTALS)
    requires m in BUCKETS ==> Agrees(rt, accountId, i, BUCKETS)
    ensures var now := RollRuntime(rt);
      Read(HeldAt(now.accounts[accountId].positions, i), m) == Total(Readings(now.attachments, accountId, i, m))
  {
    hide HeldAt, Readings, RollPositions;
    RolledReading(rt, accountId, i, m);
    BucketsAddUp(rt.attachments, accountId, i);
    RolledAt(rt.accounts[accountId].positions, i);
    if m in BUCKETS {
      assert forall b :: b in BUCKETS ==>
        Read(HeldAt(rt.accounts[accountId].positions, i), b) == Total(Readings(rt.attachments, accountId, i, b));
      assert LongToday in BUCKETS && LongYesterday in BUCKETS && ShortToday in BUCKETS && ShortYesterday in BUCKETS;
    }
  }

  /** Every day roll keeps the agreement, on buckets and on totals. */
  lemma RollKeepsAgreement(rt: Runtime, accountId: string, i: string, meters: set<Meter>)
    requires accountId in rt.accounts && (meters == BUCKETS || meters == TOTALS)
    requires Agrees(rt, accountId, i, meters) && NonNegativeAt(rt, accountId, i)
    ensures Agrees(RollRuntime(rt), accountId, i, meters) && NonNegativeAt(RollRuntime(rt), accountId, i)
  {
    hide HeldAt, Readings, RollPositions, Read;
    var now := RollRuntime(rt);
    forall m | m in meters
      ensures Read(HeldAt(now.accounts[accountId].positions, i), m) == Total(Readings(now.attachments, accountId, i, m)) {
      RolledMeters(rt, accountId, i, m);
    }
    RolledAt(rt.accounts[accountId].positions, i);
    forall k | k in now.attachments && now.attachments[k].accountId == accountId
      ensures HeldAt(now.attachments[k].positions, i).NonNegative() {
      RolledAt(rt.attachments[k].positions, i);
      assert now.attachments[k].positions == RollPositions(rt.attachments[k].positions);
    }
  }

  // ---- Whole live runs ----

  datatype LiveStep = Report(event: OrderEvent) | NewDay

  /** Every event of the run is lawful when it arrives. */
  ghost predicate LawfulRun(rt: Runtime, steps: seq<LiveStep>, accountId: string, i: string, meters: set<Meter>)
    decreases |steps|
  {
    steps != [] ==>
      match steps[0]
      case Report(e) => Lawful(rt, e, accountId, i, meters)
                        && LawfulRun(ApplyEvent(rt, e), steps[1..], accountId, i, meters)
      case NewDay => LawfulRun(RollRuntime(rt), steps[1..], accountId, i, meters)
  }

  function LiveRun(rt: Runtime, steps: seq<LiveStep>): Runtime
    requires forall s :: s in steps && s.Report? ==> s.event.accountId in rt.accounts
    decreases |steps|
  {
    if steps == [] then rt
    else
      match steps[0]
      case Report(e) => LiveRun(ApplyEvent(rt, e), steps[1..])
      case NewDay => LiveRun(RollRuntime(rt), steps[1..])
  }

  /** Over every lawful run, the account and its strategies stay in agreement on the instrument, bucket by bucket or in long
      and short totals. */
  lemma {:induction false} RunKeepsAgreement(rt: Runtime, steps: seq<LiveStep>, accountId: string, i: string,
                                             meters: set<Meter>)
    requires forall s :: s in steps && s.Report? ==> s.event.accountId in rt.accounts
    requires accountId in rt.accounts && LawfulRun(rt, steps, accountId, i, meters)
    requires meters == BUCKETS || meters == TOTALS
    requires Agrees(rt, accountId, i, meters) && NonNegativeAt(rt, accountId, i)
    ensures accountId in LiveRun(rt, steps).accounts
    ensures Agrees(LiveRun(rt, steps), accountId, i, meters) && NonNegativeAt(LiveRun(rt, steps), accountId, i)
    decreases |steps|
  {
    hide Agrees, NonNegativeAt, Lawful, Consume, BookInAccount, BookInAttachment, RollLiveAccount, RollPositions;
    if steps != [] {
      match steps[0] {
        case Report(e) =>
          EventKeepsAgreement(rt, e, accountId, i, meters);
          RunKeepsAgreement(ApplyEvent(rt, e), steps[1..], accountId, i, meters);
        case NewDay =>
          RollKeepsAgreement(rt, accountId, i, meters);
          RunKeepsAgreement(RollRuntime(rt), steps[1..], accountId, i, meters);
      }
    }
  }

  // ---- Open orders ----

  /** An event about one order of one attachment. */
  predicate Concerns(step: LiveStep, key: string, orderId: string) {
    step.Report? && AttachmentKey(step.event.strategyId, step.event.accountId) == key && step.event.orderId == orderId
  }

  function OpenAt(rt: Runtime, key: string): set<string>
    requires key in rt.attachments
  {
    rt.attachments[key].openOrders.Keys
  }

  lemma StepOpens(rt: Runtime, step: LiveStep, key: string, orderId: string)
    requires key in rt.attachments && (step.Report? ==> step.event.accountId in rt.accounts)
    ensures var after := if step.Report? then ApplyEvent(rt, step.event) else RollRuntime(rt);
      && after.accounts.Keys == rt.accounts.Keys && key in after.attachments
      && (orderId in OpenAt(after, key) <==>
            if Concerns(step, key, orderId) then !IsTerminal(step.event.status) else orderId in OpenAt(rt, key))
  {
    hide Consume, BookInAccount, LiveFill, AttachmentKey, RollLiveAccount, RollPositions;
  }

  lemma {:induction false} OthersLeaveItAlone(rt: Runtime, steps: seq<LiveStep>, key: string, orderId: string)
    requires forall s :: s in steps && s.Report? ==> s.event.accountId in rt.accounts
    requires key in rt.attachments && forall s :: s in steps ==> !Concerns(s, key, orderId)
    ensures key in LiveRun(rt, steps).attachments
    ensures orderId in OpenAt(LiveRun(rt, steps), key) <==> orderId in OpenAt(rt, key)
    decreases |steps|
  {
    hide Concerns, OpenAt, ApplyEvent, RollRuntime, IsTerminal;
    if steps != [] {
      var next := if steps[0].Report? then ApplyEvent(rt, steps[0].event) else RollRuntime(rt);
      StepOpens(rt, steps[0], key, orderId);
      OthersLeaveItAlone(next, steps[1..], key, orderId);
    }
  }

  /** An attachment shows an order as open exactly when the last event it was told of the order was not terminal. So a
      submission announced only after the order's completing trade leaves a filled order open. */
  lemma {:induction false} OpenFollowsTheLastEvent(rt: Runtime, steps: seq<LiveStep>, last: nat, key: string,
                                                   orderId: string)
    requires forall s :: s in steps && s.Report? ==> s.event.accountId in rt.accounts
    requires key in rt.attachments && last < |steps| && Concerns(steps[last], key, orderId)
    requires forall s :: s in steps[last + 1..] ==> !Concerns(s, key, orderId)
    ensures key in LiveRun(rt, steps).attachments && steps[last].Report?
    ensures orderId in OpenAt(LiveRun(rt, steps), key) <==> !IsTerminal(steps[last].event.status)
    decreases |steps|
  {
    hide OpenAt, ApplyEvent, RollRuntime, IsTerminal, AttachmentKey;
    var next := if steps[0].Report? then ApplyEvent(rt, steps[0].event) else RollRuntime(rt);
    StepOpens(rt, steps[0], key, orderId);
    if last == 0 {
      OthersLeaveItAlone(next, steps[1..], key, orderId);
    } else {
      assert steps[1..][last - 1 + 1..] == steps[last + 1..];
      OpenFollowsTheLastEvent(next, steps[1..], last - 1, key, orderId);
    }
  }

  /** The terminal events of a run for one attachment, in order. */
  function Endings(steps: seq<LiveStep>, key: string): seq<OrderEvent> {
    if steps == [] then []
    else
      (if steps[0].Report? && AttachmentKey(steps[0].event.strategyId, steps[0].event.accountId) == key
          && IsTerminal(steps[0].event.status) then [steps[0].event] else [])
      + Endings(steps[1..], key)
  }

  lemma StepCloses(rt: Runtime, step: LiveStep, key: string)
    requires key in rt.attachments && (step.Report? ==> step.event.accountId in rt.accounts)
    ensures var after := if step.Report? then ApplyEvent(rt, step.event) else RollRuntime(rt);
      && after.accounts.Keys == rt.accounts.Keys && key in after.attachments
      && after.attachments[key].closedOrders == rt.attachments[key].closedOrders + Endings([step], key)
  {
    hide Consume, BookInAccount, LiveFill, AttachmentKey, RollLiveAccount, RollPositions, IsTerminal;
    NothingAdded(rt.attachments[key].closedOrders);
  }

  /** An attachment's closed orders are the terminal events it was told of, in order; repeats included. */
  lemma {:induction false} ClosedAreTheEndings(rt: Runtime, steps: seq<LiveStep>, key: string)
    requires forall s :: s in steps && s.Report? ==> s.event.accountId in rt.accounts
    requires key in rt.attachments
    ensures key in LiveRun(rt, steps).attachments
    ensures LiveRun(rt, steps).attachments[key].closedOrders == rt.attachments[key].closedOrders + Endings(steps, key)
    decreases |steps|
  {
    hide ApplyEvent, RollRuntime, Endings;
    if steps == [] {
      NothingEnds(key);
      NothingAdded(rt.attachments[key].closedOrders);
    } else {
      var next := if steps[0].Report? then ApplyEvent(rt, steps[0].event) else RollRuntime(rt);
      StepCloses(rt, steps[0], key);
      ClosedAreTheEndings(next, steps[1..], key);
      EndingsFromFront(steps, key);
      Associates(rt.attachments[key].closedOrders, Endings([steps[0]], key), Endings(steps[1..], key));
    }
  }

  lemma NothingEnds(key: string)
    ensures Endings([], key) == []
  {
  }

  lemma EndingsFromFront(steps: seq<LiveStep>, key: string)
    requires steps != []
    ensures Endings(steps, key) == Endings([steps[0]], key) + Endings(steps[1..], key)
  {
    hide AttachmentKey, IsTerminal;
    assert [steps[0]][1..] == [];
  }

  // ---- Instruments whose closes are all of one kind ----

  /** Every event of the run is well addressed, and those for the instrument are covered by their strategy's own lots and
      are, on buckets, opens and closes of a single bucket, or, on totals, opens and plain closes elsewhere. */
  ghost predicate OneKindRun(rt: Runtime, steps: seq<LiveStep>, accountId: string, i: string, meters: set<Meter>)
    decreases |steps|
  {
    steps != [] ==>
      match steps[0]
      case Report(e) =>
        && WellAddressed(rt, e)
        && (e.accountId == accountId && e.instrument == i ==>
              Covered(rt, e) && if meters == BUCKETS then SingleBucket(RequestOf(e, 0)) else PlainClose(RequestOf(e, 0)))
        && OneKindRun(ApplyEvent(rt, e), steps[1..], accountId, i, meters)
      case NewDay => OneKindRun(RollRuntime(rt), steps[1..], accountId, i, meters)
  }

  lemma OneKindFits(rt: Runtime, e: OrderEvent, accountId: string, i: string, meters: set<Meter>)
    requires accountId in rt.accounts && WellAddressed(rt, e) && (meters == BUCKETS || meters == TOTALS)
    requires e.accountId == accountId && e.instrument == i && Covered(rt, e)
    requires if meters == BUCKETS then SingleBucket(RequestOf(e, 0)) else PlainClose(RequestOf(e, 0))
    requires Agrees(rt, accountId, i, meters) && NonNegativeAt(rt, accountId, i)
    ensures Fits(rt, e, meters)
  {
    hide Consume, Agrees, NonNegativeAt, Admits, ClosesYesterdayByDefault;
    var key, volume := AttachmentKey(e.strategyId, accountId), Consume(rt.accounts[accountId].applied, e).volume;
    if volume > 0 && meters == TOTALS {
      assert PlainClose(RequestOf(e, volume));
      AccountCovers(rt, accountId, key, i, RequestOf(e, volume), volume, meters);
    }
  }

  /** So over every such run account and strategies stay in agreement, whatever else happens on other instruments. */
  lemma {:induction false} OneKindKeepsAgreement(rt: Runtime, steps: seq<LiveStep>, accountId: string, i: string,
                                                 meters: set<Meter>)
    requires forall s :: s in steps && s.Report? ==> s.event.accountId in rt.accounts
    requires accountId in rt.accounts && OneKindRun(rt, steps, accountId, i, meters)
    requires meters == BUCKETS || meters == TOTALS
    requires Agrees(rt, accountId, i, meters) && NonNegativeAt(rt, accountId, i)
    ensures LawfulRun(rt, steps, accountId, i, meters)
    ensures accountId in LiveRun(rt, steps).accounts && Agrees(LiveRun(rt, steps), accountId, i, meters)
    decreases |steps|
  {
    hide Agrees, NonNegativeAt, Covered, Fits, Consume, BookInAccount, BookInAttachment, RollLiveAccount, RollPositions,
      WellAddressed, SingleBucket, PlainClose;
    if steps != [] {
      match steps[0] {
        case Report(e) =>
          if e.accountId == accountId && e.instrument == i {
            OneKindFits(rt, e, accountId, i, meters);
          }
          EventKeepsAgreement(rt, e, accountId, i, meters);
          OneKindKeepsAgreement(ApplyEvent(rt, e), steps[1..], accountId, i, meters);
        case NewDay =>
          RollKeepsAgreement(rt, accountId, i, meters);
          OneKindKeepsAgreement(RollRuntime(rt), steps[1..], accountId, i, meters);
      }
    }
  }

  // ---- Why the conditions on closes are needed ----

  /** The failing family: a plain close elsewhere takes yesterday's lots first. If the strategy's own do not suffice and
      somebody else has some, the account gives up that strategy's lots instead, and the buckets part, although the totals
      still agree. */
  lemma PlainClosePartsBuckets(rt: Runtime, e: OrderEvent, accountId: string, i: string)
    requires accountId in rt.accounts && WellAddressed(rt, e) && e.accountId == accountId && e.instrument == i
    requires Covered(rt, e) && Agrees(rt, accountId, i, BUCKETS) && NonNegativeAt(rt, accountId, i)
    requires var volume := Consume(rt.accounts[accountId].applied, e).volume;
      var r, own := RequestOf(e, volume), HeldAt(rt.attachments[AttachmentKey(e.strategyId, accountId)].positions, i);
      && volume > 0 && r.offset.Close? && !ClosesYesterdayByDefault(r.exchange)
      && CarriedOver(own, r) < volume && CarriedOver(own, r) != CarriedOver(HeldAt(rt.accounts[accountId].positions, i), r)
    ensures !Agrees(ApplyEvent(rt, e), accountId, i, BUCKETS) && Agrees(ApplyEvent(rt, e), accountId, i, TOTALS)
  {
    hide Consume, NonNegativeAt, ApplyEvent, CarriedOver, ClosesYesterdayByDefault, Admits, Agrees;
    var key, volume := AttachmentKey(e.strategyId, accountId), Consume(rt.accounts[accountId].applied, e).volume;
    EventKeepsAgreementExactly(rt, e, accountId, i, BUCKETS);
    AgreementInTotal(rt, accountId, i);
    AccountCovers(rt, accountId, key, i, RequestOf(e, volume), volume, BUCKETS);
    assert BUCKETS != TOTALS by {
      assert LongToday in BUCKETS && LongToday !in TOTALS;
    }
    EventKeepsAgreementExactly(rt, e, accountId, i, TOTALS);
  }

  lemma AgreementInTotal(rt: Runtime, accountId: string, i: string)
    requires accountId in rt.accounts && Agrees(rt, accountId, i, BUCKETS)
    ensures Agrees(rt, accountId, i, TOTALS)
  {
    hide HeldAt, Readings;
    BucketsAddUp(rt.attachments, accountId, i);
    assert LongToday in BUCKETS && LongYesterday in BUCKETS && ShortToday in BUCKETS && ShortYesterday in BUCKETS;
  }

  const SEED := Position(Bucket(1, 10.0), Bucket(1, 10.0), EMPTY, EMPTY)
  const A_LOT_TODAY := Position(Bucket(1, 10.0), EMPTY, EMPTY, EMPTY)
  const A_LOT_YESTERDAY := Position(EMPTY, Bucket(1, 10.0), EMPTY, EMPTY)

  /** Once the buckets have parted, a close-yesterday that the other strategy's lot covers may find none in the account, and
      then the totals part as well. */
  lemma PartedBucketsPartTotals(r: OrderRequest, s: OrderRequest, price: real)
    requires r.side.Sell? && r.offset.Close? && !ClosesYesterdayByDefault(r.exchange)
    requires s.side.Sell? && s.offset.CloseYesterday?
    ensures Admits(A_LOT_TODAY, r, 1) && Admits(A_LOT_YESTERDAY, s, 1)
    ensures var account := FillOf(SEED, r, price, 1, DEFAULT_COSTS).position;
      var first := FillOf(A_LOT_TODAY, r, price, 1, DEFAULT_COSTS).position;
      && Read(account, LongToday) != Read(first, LongToday) + Read(A_LOT_YESTERDAY, LongToday)
      && Read(account, LongTotal) == Read(first, LongTotal) + Read(A_LOT_YESTERDAY, LongTotal)
      && !Admits(account, s, 1)
      && Read(FillOf(account, s, price, 1, DEFAULT_COSTS).position, LongTotal)
         != Read(first, LongTotal) + Read(FillOf(A_LOT_YESTERDAY, s, price, 1, DEFAULT_COSTS).position, LongTotal)
  {
    hide Notional, NetOfFees, ClosesYesterdayByDefault;
  }
}
