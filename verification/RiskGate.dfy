/** The risk gate in front of live orders, and what it guarantees about exposure while orders fill. */
module RiskGate {
  import opened Numeric
  import opened Domain
  import opened Ledger
  import opened LiveFills
  import opened TradeFlow

  /** `LiveRiskConfig`; a limit of zero is no limit. */
  datatype RiskConfig = RiskConfig(
    enabled: bool, allowMarketOrders: bool, flattenOnly: bool, maxOrderVolume: int,
    maxAbsNet: int, maxLong: int, maxShort: int, maxOutstandingOrders: int,
    maxDailyLoss: real, maxQuoteStalenessMs: int, maxPriceDeviation: real)

  /** What the gate looks up about the account: the latest tick of the instrument with its time, and the clock. */
  datatype Situation = Situation(
    tradingEnabled: bool, quote: Option<Quote>, quoteTimeMs: int, nowMs: int, openOrders: int, realizedPnl: real)

  datatype Refusal =
    | TradingPaused | NonPositiveVolume | NoLimitPrice | ImplausibleLimitPrice | FlattenOnly | MarketOrder
    | VolumeTooLarge | TooManyOrders | DailyLoss | PositionInsufficient | NoQuote | UntimedQuote | StaleQuote
    | NoTopOfBook | PriceTooFar | LongExposure | ShortExposure | NetExposure

  function Touch(r: OrderRequest, q: Quote): real {
    if r.side.Buy? then BestAsk(q) else BestBid(q)
  }

  /** Checks that apply whether or not risk limits are configured. */
  function BasicRefusal(s: Situation, r: OrderRequest, requireTradingEnabled: bool): Option<Refusal> {
    if requireTradingEnabled && !s.tradingEnabled then Some(TradingPaused)
    else if r.volume <= 0 then Some(NonPositiveVolume)
    else if !r.priceType.Limit? then None
    else if r.limitPrice <= 0.0 then Some(NoLimitPrice)
    else if s.quote.None? || Touch(r, s.quote.value) <= 0.0 then None
    else
      var touch := Touch(r, s.quote.value);
      if r.limitPrice < touch * 0.5 || r.limitPrice > touch * 1.5 then Some(ImplausibleLimitPrice) else None
  }

  function QuoteRefusal(c: RiskConfig, s: Situation, r: OrderRequest): Option<Refusal> {
    if c.maxQuoteStalenessMs <= 0 && c.maxPriceDeviation <= 0.0 then None
    else if s.quote.None? then Some(NoQuote)
    else if c.maxQuoteStalenessMs > 0 && s.quoteTimeMs <= 0 then Some(UntimedQuote)
    else if c.maxQuoteStalenessMs > 0 && s.nowMs - s.quoteTimeMs > c.maxQuoteStalenessMs then Some(StaleQuote)
    else if c.maxPriceDeviation <= 0.0 || !r.priceType.Limit? then None
    else
      var touch := Touch(r, s.quote.value);
      if touch <= 0.0 then Some(NoTopOfBook)
      else if r.limitPrice > touch * (1.0 + c.maxPriceDeviation) || r.limitPrice < touch * (1.0 - c.maxPriceDeviation)
      then Some(PriceTooFar)
      else None
  }

  function Abs(n: int): int {
    if n >= 0 then n else -n
  }

  /** `compatibility_average_price`, for the price a market order is projected at. */
  function CompatibilityPrice(p: Position): real {
    if p.Long() > 0 && p.Short() == 0 then
      WeightedAveragePrice(p.longToday.quantity, p.longToday.price, p.longYesterday.quantity, p.longYesterday.price)
    else if p.Short() > 0 && p.Long() == 0 then
      WeightedAveragePrice(p.shortToday.quantity, p.shortToday.price, p.shortYesterday.quantity, p.shortYesterday.price)
    else 0.0
  }

  function Projected(p: Position, r: OrderRequest): Position {
    var price := if r.limitPrice > 0.0 then r.limitPrice else CompatibilityPrice(p);
    FillOf(p, r, price, r.volume, DEFAULT_COSTS).position
  }

  function ExposureRefusal(c: RiskConfig, long: int, short: int): Option<Refusal> {
    if c.maxLong > 0 && long > c.maxLong then Some(LongExposure)
    else if c.maxShort > 0 && short > c.maxShort then Some(ShortExposure)
    else if c.maxAbsNet > 0 && Abs(long - short) > c.maxAbsNet then Some(NetExposure)
    else None
  }

  /** `evaluate_live_order_risk`: the reason to refuse, or none. */
  function Evaluate(c: RiskConfig, s: Situation, p: Position, r: OrderRequest, requireTradingEnabled: bool)
    : Option<Refusal>
  {
    var basic := BasicRefusal(s, r, requireTradingEnabled);
    if basic.Some? || !c.enabled then basic
    else if c.flattenOnly && r.offset.Open? then Some(FlattenOnly)
    else if !c.allowMarketOrders && r.priceType.Market? then Some(MarketOrder)
    else if c.maxOrderVolume > 0 && r.volume > c.maxOrderVolume then Some(VolumeTooLarge)
    else if c.maxOutstandingOrders > 0 && s.openOrders >= c.maxOutstandingOrders then Some(TooManyOrders)
    else if c.maxDailyLoss > 0.0 && s.realizedPnl <= -c.maxDailyLoss then Some(DailyLoss)
    else if !CloseRequestIsValid(p, r) then Some(PositionInsufficient)
    else if QuoteRefusal(c, s, r).Some? then QuoteRefusal(c, s, r)
    else ExposureRefusal(c, Projected(p, r).Long(), Projected(p, r).Short())
  }

  // ---- Exposure while an order fills ----

  /** Within every configured limit. */
  predicate Within(c: RiskConfig, long: int, short: int) {
    && (c.maxLong > 0 ==> long <= c.maxLong)
    && (c.maxShort > 0 ==> short <= c.maxShort)
    && (c.maxAbsNet > 0 ==> -c.maxAbsNet <= long - short <= c.maxAbsNet)
  }

  /** Long and short lots once `lots` of the order have filled. */
  datatype Exposure = Exposure(long: int, short: int)

  function Outcome(p: Position, r: OrderRequest, lots: int): Exposure {
    match (r.offset.Open?, r.side)
    case (true, Buy) => Exposure(p.Long() + lots, p.Short())
    case (true, Sell) => Exposure(p.Long(), p.Short() + lots)
    case (false, Buy) => Exposure(p.Long(), p.Short() - lots)
    case (false, Sell) => Exposure(p.Long() - lots, p.Short())
  }

  lemma AdmittedOutcome(p: Position, r: OrderRequest, price: real, lots: int)
    requires p.NonNegative() && lots > 0 && Admits(p, r, lots)
    ensures var after := FillOf(p, r, price, lots, DEFAULT_COSTS).position;
      after.NonNegative() && Exposure(after.Long(), after.Short()) == Outcome(p, r, lots)
  {
    hide Notional, NetOfFees, WeightedAveragePrice, ClosesYesterdayByDefault, Closeable;
    if !r.offset.Open? {
      CloseIsExact(p, r, price, lots, DEFAULT_COSTS);
    }
  }

  /** The price on the other side of the book, where the order would trade. */
  function Opposite(side: Side, q: Quote): real {
    match side
    case Buy => Quoted(q.ask, q.last)
    case Sell => Quoted(q.bid, q.last)
  }

  /** Rules for a limit price that hold with or without risk limits: positive, and not far from a known touch. */
  predicate PlausibleLimit(s: Situation, r: OrderRequest) {
    r.priceType.Limit? ==>
      && r.limitPrice > 0.0
      && (s.quote.Some? && Opposite(r.side, s.quote.value) > 0.0
          ==> 0.5 * Opposite(r.side, s.quote.value) <= r.limitPrice <= 1.5 * Opposite(r.side, s.quote.value))
  }

  /** A quote is there when it is needed, timed and recent when staleness is limited, and near when deviation is. */
  predicate QuoteSuffices(c: RiskConfig, s: Situation, r: OrderRequest) {
    && (c.maxQuoteStalenessMs > 0 || c.maxPriceDeviation > 0.0 ==> s.quote.Some?)
    && (c.maxQuoteStalenessMs > 0 ==> s.quoteTimeMs > 0 && s.nowMs <= s.quoteTimeMs + c.maxQuoteStalenessMs)
    && (c.maxPriceDeviation > 0.0 && r.priceType.Limit? && s.quote.Some? ==>
          var touch := Opposite(r.side, s.quote.value);
          touch > 0.0 && AbsReal(r.limitPrice - touch) <= touch * c.maxPriceDeviation)
  }

  /** The policy, rule by rule and in no particular order. */
  ghost predicate Permitted(c: RiskConfig, s: Situation, p: Position, r: OrderRequest, require: bool) {
    && (require ==> s.tradingEnabled) && r.volume > 0 && PlausibleLimit(s, r)
    && (c.enabled ==>
          && !(c.flattenOnly && r.offset.Open?)
          && (r.priceType.Market? ==> c.allowMarketOrders)
          && (c.maxOrderVolume > 0 ==> r.volume <= c.maxOrderVolume)
          && (c.maxOutstandingOrders > 0 ==> s.openOrders < c.maxOutstandingOrders)
          && (c.maxDailyLoss > 0.0 ==> s.realizedPnl + c.maxDailyLoss > 0.0)
          && Admits(p, r, r.volume) && QuoteSuffices(c, s, r)
          && Within(c, Outcome(p, r, r.volume).long, Outcome(p, r, r.volume).short))
  }

  lemma TouchIsOpposite(r: OrderRequest, q: Quote)
    ensures Touch(r, q) == Opposite(r.side, q)
  {
  }

  lemma QuoteRules(c: RiskConfig, s: Situation, r: OrderRequest)
    ensures QuoteRefusal(c, s, r).None? <==> QuoteSuffices(c, s, r)
  {
    if s.quote.Some? {
      var touch, d := Touch(r, s.quote.value), c.maxPriceDeviation;
      assert touch * (1.0 + d) == touch + touch * d && touch * (1.0 - d) == touch - touch * d;
    }
  }

  /** The gate accepts exactly the orders the policy permits. */
  lemma AcceptsExactly(c: RiskConfig, s: Situation, p: Position, r: OrderRequest, require: bool)
    requires p.NonNegative()
    ensures Evaluate(c, s, p, r, require).None? <==> Permitted(c, s, p, r, require)
  {
    hide QuoteRefusal, QuoteSuffices, CompatibilityPrice, FillOf, Closeable, Touch, Opposite;
    if s.quote.Some? {
      TouchIsOpposite(r, s.quote.value);
    }
    QuoteRules(c, s, r);
    if r.volume > 0 && Admits(p, r, r.volume) {
      AdmittedOutcome(p, r, if r.limitPrice > 0.0 then r.limitPrice else CompatibilityPrice(p), r.volume);
    }
  }

  /** An order the gate accepts is covered by the position, and completely filled it stays within the limits; in
      flatten-only mode it closes. */
  lemma AcceptedStaysWithin(c: RiskConfig, s: Situation, p: Position, r: OrderRequest, require: bool)
    requires c.enabled && p.NonNegative() && Evaluate(c, s, p, r, require).None?
    ensures r.volume > 0 && Admits(p, r, r.volume)
    ensures Within(c, Outcome(p, r, r.volume).long, Outcome(p, r, r.volume).short)
    ensures c.flattenOnly ==> !r.offset.Open?
  {
    hide QuoteRefusal, CompatibilityPrice, FillOf, Closeable, Touch;
    assert r.volume > 0;
    AdmittedOutcome(p, r, if r.limitPrice > 0.0 then r.limitPrice else CompatibilityPrice(p), r.volume);
  }

  /** Any fill, covered or not, moves the exposure part of the way: an open by its lots, a close by at most its lots. */
  lemma FillMovesPartOfTheWay(p: Position, r: OrderRequest, price: real, lots: int)
    requires p.NonNegative() && lots > 0
    ensures var after := FillOf(p, r, price, lots, DEFAULT_COSTS).position;
      && after.NonNegative()
      && (r.offset.Open? ==> Exposure(after.Long(), after.Short()) == Outcome(p, r, lots))
      && (!r.offset.Open? ==>
            && p.Long() - (if r.side.Sell? then lots else 0) <= after.Long() <= p.Long()
            && p.Short() - (if r.side.Buy? then lots else 0) <= after.Short() <= p.Short())
  {
    hide Notional, NetOfFees, WeightedAveragePrice, ClosesYesterdayByDefault, Gain;
  }

  /** Working lots of an order that the position and the limits allow for. */
  predicate Allowed(c: RiskConfig, p: Position, r: OrderRequest, lots: int) {
    && lots >= 0 && Within(c, p.Long(), p.Short())
    && Within(c, Outcome(p, r, lots).long, Outcome(p, r, lots).short)
  }

  lemma FillKeepsAllowed(c: RiskConfig, p: Position, r: OrderRequest, remaining: int, price: real, lots: int)
    requires p.NonNegative() && Allowed(c, p, r, remaining) && 0 < lots <= remaining
    ensures var after := FillOf(p, r, price, lots, DEFAULT_COSTS).position;
      after.NonNegative() && Allowed(c, after, r, remaining - lots)
  {
    hide FillOf;
    FillMovesPartOfTheWay(p, r, price, lots);
  }

  lemma RollKeepsExposure(p: Position)
    requires p.NonNegative()
    ensures Roll(p).NonNegative() && Roll(p).Long() == p.Long() && Roll(p).Short() == p.Short()
  {
    hide WeightedAveragePrice;
  }

  /** Of two orders that differ in volume only, the gate accepts the smaller one if it accepts the larger. */
  lemma SmallerIsAccepted(c: RiskConfig, s: Situation, p: Position, r: OrderRequest, volume: int, require: bool)
    requires p.NonNegative() && Within(c, p.Long(), p.Short())
    requires 0 < volume <= r.volume && Evaluate(c, s, p, r, require).None?
    ensures Evaluate(c, s, p, r.(volume := volume), require).None?
  {
    hide FillOf, CompatibilityPrice, ClosesYesterdayByDefault;
    var smaller := r.(volume := volume);
    assert BasicRefusal(s, smaller, require) == BasicRefusal(s, r, require) == None;
    if c.enabled {
      AcceptedStaysWithin(c, s, p, r, require);
      AdmittedOutcome(p, smaller, if r.limitPrice > 0.0 then r.limitPrice else CompatibilityPrice(p), volume);
    }
  }

  // ---- Whole runs ----

  /** An accepted order of an instrument and the lots it still has to fill. */
  datatype Flight = Flight(request: OrderRequest, remaining: int)

  datatype Desk = Desk(positions: Positions, flights: map<string, Flight>)

  datatype DeskStep =
    | Decide(request: OrderRequest, situation: Situation)
    | Trade(instrument: string, price: real, lots: int)
    | End(instrument: string)
    | NextDay

  /** At most one accepted order per instrument is in flight, and fills stay within the order. */
  predicate Possible(d: Desk, step: DeskStep) {
    match step
    case Decide(r, _) => r.instrument !in d.flights
    case Trade(i, _, lots) => i in d.flights && 0 < lots <= d.flights[i].remaining
    case _ => true
  }

  function Advance(c: RiskConfig, d: Desk, step: DeskStep): Desk
    requires Possible(d, step)
  {
    match step
    case Decide(r, s) =>
      if Evaluate(c, s, HeldAt(d.positions, r.instrument), r, true).Some? then d
      else d.(flights := d.flights[r.instrument := Flight(r, r.volume)])
    case Trade(i, price, lots) =>
      var flight := d.flights[i];
      Desk(d.positions[i := FillOf(HeldAt(d.positions, i), flight.request, price, lots, DEFAULT_COSTS).position],
           d.flights[i := flight.(remaining := flight.remaining - lots)])
    case End(i) => d.(flights := d.flights - {i})
    case NextDay => d.(positions := RollPositions(d.positions))
  }

  ghost predicate PossibleRun(c: RiskConfig, d: Desk, steps: seq<DeskStep>)
    decreases |steps|
  {
    steps != [] ==> Possible(d, steps[0]) && PossibleRun(c, Advance(c, d, steps[0]), steps[1..])
  }

  ghost function RunOf(c: RiskConfig, d: Desk, steps: seq<DeskStep>): Desk
    requires PossibleRun(c, d, steps)
    decreases |steps|
  {
    if steps == [] then d else RunOf(c, Advance(c, d, steps[0]), steps[1..])
  }

  /** No bucket is negative, every position is within the limits, and so is what the order in flight may make of it. */
  predicate SafeAt(c: RiskConfig, d: Desk, i: string) {
    var p := HeldAt(d.positions, i);
    && p.NonNegative() && Within(c, p.Long(), p.Short())
    && (i in d.flights ==> Allowed(c, p, d.flights[i].request, d.flights[i].remaining))
  }

  lemma StepIsSafe(c: RiskConfig, d: Desk, step: DeskStep, i: string)
    requires c.enabled && Possible(d, step) && SafeAt(c, d, i)
    ensures SafeAt(c, Advance(c, d, step), i)
  {
    hide Within, Outcome, FillOf, Evaluate, Position.NonNegative, Position.Long, Position.Short;
    match step {
      case Decide(r, s) =>
        if r.instrument == i && Evaluate(c, s, HeldAt(d.positions, i), r, true).None? {
          AcceptedStaysWithin(c, s, HeldAt(d.positions, i), r, true);
        }
      case Trade(j, price, lots) =>
        if j == i {
          FillKeepsAllowed(c, HeldAt(d.positions, i), d.flights[i].request, d.flights[i].remaining, price, lots);
        }
      case End(_) =>
      case NextDay => RolledIsSafe(c, d, i);
    }
  }

  lemma RolledIsSafe(c: RiskConfig, d: Desk, i: string)
    requires SafeAt(c, d, i)
    ensures SafeAt(c, d.(positions := RollPositions(d.positions)), i)
  {
    hide Roll, Position.NonNegative;
    RollKeepsExposure(HeldAt(d.positions, i));
    assert HeldAt(RollPositions(d.positions), i) == Roll(HeldAt(d.positions, i))
        || HeldAt(RollPositions(d.positions), i) == HeldAt(d.positions, i);
  }

  /** With at most one accepted order in flight per instrument, an account that starts within its limits stays within them,
      through every partial and complete fill, whatever the day rolls, cancels and later decisions. */
  lemma {:induction false} RunStaysWithin(c: RiskConfig, d: Desk, steps: seq<DeskStep>)
    requires c.enabled && PossibleRun(c, d, steps)
    requires forall i :: SafeAt(c, d, i)
    ensures forall i :: SafeAt(c, RunOf(c, d, steps), i)
    decreases |steps|
  {
    hide SafeAt, Advance, Possible;
    if steps != [] {
      forall i ensures SafeAt(c, Advance(c, d, steps[0]), i) {
        StepIsSafe(c, d, steps[0], i);
      }
      RunStaysWithin(c, Advance(c, d, steps[0]), steps[1..]);
    }
  }

  // ---- Several orders in flight ----

  /** A position and the accepted orders of its instrument that may still fill. */
  datatype Exposed = Exposed(position: Position, flights: seq<Flight>)

  /** Lots of one of the orders fill. */
  datatype Hit = Hit(order: nat, price: real, lots: int)

  predicate Sound(e: Exposed) {
    e.position.NonNegative() && forall f :: f in e.flights ==> f.remaining >= 0
  }

  predicate CanHit(e: Exposed, h: Hit) {
    h.order < |e.flights| && 0 < h.lots <= e.flights[h.order].remaining
  }

  function AfterHit(e: Exposed, h: Hit): Exposed
    requires CanHit(e, h)
  {
    var flight := e.flights[h.order];
    Exposed(FillOf(e.position, flight.request, h.price, h.lots, DEFAULT_COSTS).position,
            e.flights[h.order := flight.(remaining := flight.remaining - h.lots)])
  }

  ghost predicate CanHits(e: Exposed, hits: seq<Hit>)
    decreases |hits|
  {
    hits != [] ==> CanHit(e, hits[0]) && CanHits(AfterHit(e, hits[0]), hits[1..])
  }

  ghost function AfterHits(e: Exposed, hits: seq<Hit>): Exposed
    requires CanHits(e, hits)
    decreases |hits|
  {
    if hits == [] then e else AfterHits(AfterHit(e, hits[0]), hits[1..])
  }

  /** Which lots a fill touches: it opens, closes today's lots, closes yesterday's, or closes either, yesterday's first. */
  datatype Kind = Opens | OfToday | OfYesterday | Either

  function KindOf(r: OrderRequest): Kind {
    if r.offset.Open? then Opens
    else if r.offset.CloseToday? then OfToday
    else if r.offset.CloseYesterday? || ClosesYesterdayByDefault(r.exchange) then OfYesterday
    else Either
  }

  /** What an order can still fill, if it is of that side and kind. */
  function Counted(f: Flight, side: Side, kind: Kind): int {
    if f.request.side == side && KindOf(f.request) == kind then f.remaining else 0
  }

  function Outstanding(flights: seq<Flight>, side: Side, kind: Kind): int {
    if flights == [] then 0
    else Counted(flights[|flights| - 1], side, kind) + Outstanding(flights[..|flights| - 1], side, kind)
  }

  lemma {:induction false} OutstandingUpdated(flights: seq<Flight>, k: nat, f: Flight, side: Side, kind: Kind)
    requires k < |flights|
    ensures Outstanding(flights[k := f], side, kind)
      == Outstanding(flights, side, kind) - Counted(flights[k], side, kind) + Counted(f, side, kind)
  {
    hide Counted;
    var n := |flights| - 1;
    if k == n {
      assert flights[k := f][..n] == flights[..n];
    } else {
      assert flights[k := f][..n] == flights[..n][k := f];
      OutstandingUpdated(flights[..n], k, f, side, kind);
    }
  }

  /** The outstanding lots are not negative, and if there are any then some order has some. */
  lemma {:induction false} SomeOutstanding(flights: seq<Flight>, side: Side, kind: Kind)
    requires forall f :: f in flights ==> f.remaining >= 0
    ensures Outstanding(flights, side, kind) >= 0
    ensures Outstanding(flights, side, kind) > 0 ==>
      exists k :: 0 <= k < |flights| && Counted(flights[k], side, kind) > 0
  {
    hide KindOf;
    if flights != [] {
      var n := |flights| - 1;
      SomeOutstanding(flights[..n], side, kind);
      if Counted(flights[n], side, kind) <= 0 && Outstanding(flights, side, kind) > 0 {
        var k :| 0 <= k < n && Counted(flights[..n][k], side, kind) > 0;
        assert flights[k] == flights[..n][k];
      }
    }
  }

  /** A position as a side's orders see it: the lots on the side they open, and those they close. */
  datatype Stock = Stock(held: int, today: int, yesterday: int)
  {
    function Balance(): int { held - today - yesterday }
  }

  function StockOf(p: Position, side: Side): Stock {
    if side.Buy? then Stock(p.Long(), p.shortToday.quantity, p.shortYesterday.quantity)
    else Stock(p.Short(), p.longToday.quantity, p.longYesterday.quantity)
  }

  /** What a fill of lots of one of the side's orders makes of it. */
  function Filled(s: Stock, kind: Kind, lots: int): Stock {
    match kind
    case Opens => s.(held := s.held + lots)
    case OfToday => s.(today := s.today - Min(s.today, lots))
    case OfYesterday => s.(yesterday := s.yesterday - Min(s.yesterday, lots))
    case Either =>
      var first := Min(s.yesterday, lots);
      s.(yesterday := s.yesterday - first, today := s.today - Min(s.today, lots - first))
  }

  lemma FillOnStock(p: Position, r: OrderRequest, price: real, lots: int)
    requires p.NonNegative() && lots > 0
    ensures var after := FillOf(p, r, price, lots, DEFAULT_COSTS).position;
      after.NonNegative() && StockOf(after, r.side) == Filled(StockOf(p, r.side), KindOf(r), lots)
  {
    hide Notional, NetOfFees, WeightedAveragePrice, ClosesYesterdayByDefault, Gain;
  }

  /** The other side's orders see lots opened against them, or some of what they hold closed. */
  lemma FillOnOtherStock(p: Position, r: OrderRequest, price: real, lots: int, side: Side)
    requires p.NonNegative() && lots > 0 && side != r.side
    ensures var was, now := StockOf(p, side), StockOf(FillOf(p, r, price, lots, DEFAULT_COSTS).position, side);
      if r.offset.Open? then now == was.(today := was.today + lots) else now == was.(held := now.held) && now.held <= was.held
  {
    hide Notional, NetOfFees, WeightedAveragePrice, ClosesYesterdayByDefault, Gain;
  }

  /** Orders of one side, counted by kind. */
  datatype Load = Load(opens: int, ofToday: int, ofYesterday: int, either: int)
  {
    predicate Sound() { opens >= 0 && ofToday >= 0 && ofYesterday >= 0 && either >= 0 }
  }

  function LoadOf(flights: seq<Flight>, side: Side): Load {
    Load(Outstanding(flights, side, Opens), Outstanding(flights, side, OfToday),
         Outstanding(flights, side, OfYesterday), Outstanding(flights, side, Either))
  }

  function Less(load: Load, kind: Kind, lots: int): Load {
    match kind
    case Opens => load.(opens := load.opens - lots)
    case OfToday => load.(ofToday := load.ofToday - lots)
    case OfYesterday => load.(ofYesterday := load.ofYesterday - lots)
    case Either => load.(either := load.either - lots)
  }

  /** The lots that orders of one side can close together: those bound to a bucket first, then those that take either. */
  function Closing(s: Stock, load: Load): int {
    var today, yesterday := Min(s.today, load.ofToday), Min(s.yesterday, load.ofYesterday);
    today + yesterday + Min(load.either, s.today - today + s.yesterday - yesterday)
  }

  /** The most that the side's orders can make of the lots they open, and of those less the lots they close. */
  function Ceiling(s: Stock, load: Load): int { s.held + load.opens }

  function BalanceCeiling(s: Stock, load: Load): int { s.Balance() + load.opens + Closing(s, load) }

  /** Whatever fills first, no order of the side raises the bounds. */
  lemma FillNarrows(s: Stock, load: Load, kind: Kind, lots: int)
    requires s.today >= 0 && s.yesterday >= 0 && load.Sound() && lots > 0 && Less(load, kind, lots).Sound()
    ensures Ceiling(Filled(s, kind, lots), Less(load, kind, lots)) <= Ceiling(s, load)
    ensures BalanceCeiling(Filled(s, kind, lots), Less(load, kind, lots)) <= BalanceCeiling(s, load)
  {
  }

  lemma OtherFillNarrows(s: Stock, load: Load, lots: int, held: int)
    requires s.today >= 0 && s.yesterday >= 0 && load.Sound() && lots > 0 && held <= s.held
    ensures BalanceCeiling(s.(today := s.today + lots), load) <= BalanceCeiling(s, load)
    ensures BalanceCeiling(s.(held := held), load) <= BalanceCeiling(s, load)
  {
  }

  lemma HitUsesUp(e: Exposed, h: Hit, side: Side, kind: Kind)
    requires CanHit(e, h)
    ensures var r := e.flights[h.order].request;
      Outstanding(AfterHit(e, h).flights, side, kind)
        == Outstanding(e.flights, side, kind) - (if r.side == side && KindOf(r) == kind then h.lots else 0)
  {
    hide FillOf, Outstanding, KindOf;
    var flight := e.flights[h.order];
    OutstandingUpdated(e.flights, h.order, flight.(remaining := flight.remaining - h.lots), side, kind);
  }

  lemma HitUnloads(e: Exposed, h: Hit, side: Side)
    requires CanHit(e, h)
    ensures var r := e.flights[h.order].request;
      LoadOf(AfterHit(e, h).flights, side)
        == if r.side == side then Less(LoadOf(e.flights, side), KindOf(r), h.lots) else LoadOf(e.flights, side)
  {
    hide Outstanding, KindOf, AfterHit;
    HitUsesUp(e, h, side, Opens);
    HitUsesUp(e, h, side, OfToday);
    HitUsesUp(e, h, side, OfYesterday);
    HitUsesUp(e, h, side, Either);
  }

  lemma LoadIsSound(e: Exposed, side: Side)
    requires Sound(e)
    ensures LoadOf(e.flights, side).Sound()
    ensures StockOf(e.position, side).today >= 0 && StockOf(e.position, side).yesterday >= 0
  {
    SomeOutstanding(e.flights, side, Opens);
    SomeOutstanding(e.flights, side, OfToday);
    SomeOutstanding(e.flights, side, OfYesterday);
    SomeOutstanding(e.flights, side, Either);
  }

  function CeilingOf(e: Exposed, side: Side): int { Ceiling(StockOf(e.position, side), LoadOf(e.flights, side)) }

  function BalanceCeilingOf(e: Exposed, side: Side): int {
    BalanceCeiling(StockOf(e.position, side), LoadOf(e.flights, side))
  }

  predicate Narrowed(now: Exposed, was: Exposed, side: Side) {
    CeilingOf(now, side) <= CeilingOf(was, side) && BalanceCeilingOf(now, side) <= BalanceCeilingOf(was, side)
  }

  lemma HitKeepsSound(e: Exposed, h: Hit)
    requires Sound(e) && CanHit(e, h)
    ensures Sound(AfterHit(e, h))
  {
    hide FillOf, Position.NonNegative;
    FillOnStock(e.position, e.flights[h.order].request, h.price, h.lots);
  }

  lemma HitNarrows(e: Exposed, h: Hit, side: Side)
    requires Sound(e) && CanHit(e, h)
    ensures Sound(AfterHit(e, h)) && Narrowed(AfterHit(e, h), e, side)
  {
    hide FillOf, LoadOf, StockOf, KindOf, Less, Filled, BalanceCeiling, Load.Sound, Position.NonNegative;
    var r := e.flights[h.order].request;
    var s, load := StockOf(e.position, side), LoadOf(e.flights, side);
    HitKeepsSound(e, h);
    LoadIsSound(e, side);
    LoadIsSound(AfterHit(e, h), side);
    HitUnloads(e, h, side);
    if r.side == side {
      FillOnStock(e.position, r, h.price, h.lots);
      FillNarrows(s, load, KindOf(r), h.lots);
    } else {
      FillOnOtherStock(e.position, r, h.price, h.lots, side);
      OtherFillNarrows(s, load, h.lots, StockOf(AfterHit(e, h).position, side).held);
      OtherFillNarrows(s, load, h.lots, s.held);
    }
  }

  lemma {:induction false} HitsNarrow(e: Exposed, hits: seq<Hit>, side: Side)
    requires Sound(e) && CanHits(e, hits)
    ensures Sound(AfterHits(e, hits)) && Narrowed(AfterHits(e, hits), e, side)
    decreases |hits|
  {
    hide Sound, AfterHit, CeilingOf, BalanceCeilingOf;
    if hits != [] {
      HitNarrows(e, hits[0], side);
      HitsNarrow(AfterHit(e, hits[0]), hits[1..], side);
    }
  }

  /** Whatever fills, the side's lots, and their balance against the lots of the other, stay under the bounds. */
  lemma HitsStayUnder(e: Exposed, hits: seq<Hit>, side: Side)
    requires Sound(e) && CanHits(e, hits)
    ensures var after := StockOf(AfterHits(e, hits).position, side);
      after.held <= CeilingOf(e, side) && after.Balance() <= BalanceCeilingOf(e, side)
  {
    hide StockOf, LoadOf, CanHits, AfterHits, Sound;
    HitsNarrow(e, hits, side);
    LoadIsSound(AfterHits(e, hits), side);
  }

  // ---- The bounds are reached ----

  function OfKind(load: Load, kind: Kind): int {
    match kind
    case Opens => load.opens
    case OfToday => load.ofToday
    case OfYesterday => load.ofYesterday
    case Either => load.either
  }

  /** One order fills whole. */
  lemma WholeHit(e: Exposed, k: nat, side: Side, kind: Kind)
    requires Sound(e) && k < |e.flights| && Counted(e.flights[k], side, kind) > 0
    ensures var h := Hit(k, 1.0, e.flights[k].remaining);
      && CanHit(e, h) && Sound(AfterHit(e, h))
      && StockOf(AfterHit(e, h).position, side) == Filled(StockOf(e.position, side), kind, h.lots)
      && LoadOf(AfterHit(e, h).flights, side) == Less(LoadOf(e.flights, side), kind, h.lots)
  {
    hide FillOf, KindOf, StockOf, LoadOf, Filled, Less, Sound;
    var h := Hit(k, 1.0, e.flights[k].remaining);
    HitKeepsSound(e, h);
    HitUnloads(e, h, side);
    SoundPosition(e);
    FillOnStock(e.position, e.flights[k].request, 1.0, h.lots);
  }

  lemma SoundPosition(e: Exposed)
    requires Sound(e)
    ensures e.position.NonNegative() && forall f :: f in e.flights ==> f.remaining >= 0
  {
  }

  /** Two fills of a kind are one of both volumes. */
  lemma FilledTwice(s: Stock, kind: Kind, a: int, b: int)
    requires s.today >= 0 && s.yesterday >= 0 && a >= 0 && b >= 0
    ensures Filled(Filled(s, kind, a), kind, b) == Filled(s, kind, a + b)
    ensures Filled(s, kind, 0) == s
  {
  }

  lemma LessTwice(load: Load, kind: Kind, a: int, b: int)
    ensures Less(Less(load, kind, a), kind, b) == Less(load, kind, a + b) && Less(load, kind, 0) == load
    ensures OfKind(Less(load, kind, a), kind) == OfKind(load, kind) - a
  {
  }

  /** All the side's orders of one kind fill whole. */
  lemma {:induction false} KindCanFill(e: Exposed, side: Side, kind: Kind) returns (hits: seq<Hit>)
    requires Sound(e)
    ensures CanHits(e, hits) && Sound(AfterHits(e, hits))
    ensures var load, after := LoadOf(e.flights, side), AfterHits(e, hits);
      && StockOf(after.position, side) == Filled(StockOf(e.position, side), kind, OfKind(load, kind))
      && LoadOf(after.flights, side) == Less(load, kind, OfKind(load, kind))
    decreases Outstanding(e.flights, side, kind)
  {
    hide Sound, AfterHit, CanHit, StockOf, Filled, Less, Counted, Outstanding;
    var s, load := StockOf(e.position, side), LoadOf(e.flights, side);
    var open := Outstanding(e.flights, side, kind);
    assert OfKind(load, kind) == open;
    SoundPosition(e);
    SomeOutstanding(e.flights, side, kind);
    LoadIsSound(e, side);
    if open == 0 {
      hits := [];
      FilledTwice(s, kind, 0, 0);
      LessTwice(load, kind, 0, 0);
    } else {
      var k :| 0 <= k < |e.flights| && Counted(e.flights[k], side, kind) > 0;
      var h := Hit(k, 1.0, e.flights[k].remaining);
      WholeHit(e, k, side, kind);
      LessTwice(load, kind, h.lots, open - h.lots);
      assert OfKind(LoadOf(AfterHit(e, h).flights, side), kind) == open - h.lots;
      LeftIsCounted(AfterHit(e, h).flights, side, kind);
      assert h.lots > 0 by {
        CountedIsRemaining(e.flights[k], side, kind);
      }
      var rest := KindCanFill(AfterHit(e, h), side, kind);
      SoundPosition(AfterHit(e, h));
      SomeOutstanding(AfterHit(e, h).flights, side, kind);
      FilledTwice(s, kind, h.lots, open - h.lots);
      hits := [h] + rest;
      assert hits[0] == h && hits[1..] == rest;
    }
  }

  lemma LeftIsCounted(flights: seq<Flight>, side: Side, kind: Kind)
    ensures OfKind(LoadOf(flights, side), kind) == Outstanding(flights, side, kind)
  {
  }

  lemma CountedIsRemaining(f: Flight, side: Side, kind: Kind)
    ensures Counted(f, side, kind) > 0 ==> f.remaining == Counted(f, side, kind)
  {
  }

  lemma {:induction false} HitsJoin(e: Exposed, a: seq<Hit>, b: seq<Hit>)
    requires CanHits(e, a) && CanHits(AfterHits(e, a), b)
    ensures CanHits(e, a + b) && AfterHits(e, a + b) == AfterHits(AfterHits(e, a), b)
    decreases |a|
  {
    hide AfterHit, CanHit;
    if a == [] {
      assert a + b == b;
    } else {
      HitsJoin(AfterHit(e, a[0]), a[1..], b);
      assert (a + b)[1..] == a[1..] + b && (a + b)[0] == a[0];
    }
  }

  /** What the side's orders make of the position when they fill kind by kind, those bound to a bucket before the others. */
  function AllFilled(s: Stock, load: Load): Stock {
    Filled(Filled(Filled(Filled(s, Opens, load.opens), OfToday, load.ofToday), OfYesterday, load.ofYesterday),
           Either, load.either)
  }

  lemma AllFilledReachesBounds(s: Stock, load: Load)
    requires s.today >= 0 && s.yesterday >= 0 && load.Sound()
    ensures AllFilled(s, load).held == Ceiling(s, load) && AllFilled(s, load).Balance() == BalanceCeiling(s, load)
  {
  }

  lemma BoundsAreReached(e: Exposed, side: Side) returns (hits: seq<Hit>)
    requires Sound(e)
    ensures CanHits(e, hits)
    ensures var after := StockOf(AfterHits(e, hits).position, side);
      after.held == CeilingOf(e, side) && after.Balance() == BalanceCeilingOf(e, side)
  {
    hide Sound, CanHits, AfterHits, StockOf, LoadOf, Filled;
    LoadIsSound(e, side);
    AllFilledReachesBounds(StockOf(e.position, side), LoadOf(e.flights, side));
    hits := KindCanFill(e, side, Opens);
    var more := KindCanFill(AfterHits(e, hits), side, OfToday);
    HitsJoin(e, hits, more);
    hits := hits + more;
    more := KindCanFill(AfterHits(e, hits), side, OfYesterday);
    HitsJoin(e, hits, more);
    hits := hits + more;
    more := KindCanFill(AfterHits(e, hits), side, Either);
    HitsJoin(e, hits, more);
    hits := hits + more;
  }

  // ---- The limits ----

  /** The most long, short and net lots, and the fewest net lots, that the outstanding orders can make of the position. */
  function LongCeiling(e: Exposed): int { e.position.Long() + Outstanding(e.flights, Buy, Opens) }

  function ShortCeiling(e: Exposed): int { e.position.Short() + Outstanding(e.flights, Sell, Opens) }

  function NetCeiling(e: Exposed): int {
    e.position.Net() + Outstanding(e.flights, Buy, Opens) + Closing(StockOf(e.position, Buy), LoadOf(e.flights, Buy))
  }

  function NetFloor(e: Exposed): int {
    e.position.Net() - Outstanding(e.flights, Sell, Opens) - Closing(StockOf(e.position, Sell), LoadOf(e.flights, Sell))
  }

  lemma SidesAreStocks(e: Exposed, p: Position)
    ensures StockOf(p, Buy).held == p.Long() && StockOf(p, Buy).Balance() == p.Net()
    ensures StockOf(p, Sell).held == p.Short() && StockOf(p, Sell).Balance() == -p.Net()
    ensures CeilingOf(e, Buy) == LongCeiling(e) && BalanceCeilingOf(e, Buy) == NetCeiling(e)
    ensures CeilingOf(e, Sell) == ShortCeiling(e) && BalanceCeilingOf(e, Sell) == -NetFloor(e)
  {
    hide Outstanding, Closing;
  }

  /** Every order, number and size of fills of the outstanding orders keeps the long lots under a limit if and only if the
      long lots and all opening buys together are under it, and likewise the short lots. */
  lemma SideLimitsHoldExactly(e: Exposed, limit: int)
    requires Sound(e)
    ensures (forall hits :: CanHits(e, hits) ==> AfterHits(e, hits).position.Long() <= limit)
      <==> LongCeiling(e) <= limit
    ensures (forall hits :: CanHits(e, hits) ==> AfterHits(e, hits).position.Short() <= limit)
      <==> ShortCeiling(e) <= limit
  {
    hide Sound, AfterHits, CanHits, Position.Long, Position.Short, LongCeiling, ShortCeiling, StockOf, CeilingOf,
      BalanceCeilingOf, NetCeiling, NetFloor;
    forall hits | CanHits(e, hits)
      ensures AfterHits(e, hits).position.Long() <= LongCeiling(e)
      ensures AfterHits(e, hits).position.Short() <= ShortCeiling(e)
    {
      HitsStayUnder(e, hits, Buy);
      HitsStayUnder(e, hits, Sell);
      SidesAreStocks(e, AfterHits(e, hits).position);
    }
    var buys := BoundsAreReached(e, Buy);
    var sells := BoundsAreReached(e, Sell);
    SidesAreStocks(e, AfterHits(e, buys).position);
    SidesAreStocks(e, AfterHits(e, sells).position);
  }

  /** And the net lots stay within a limit either way if and only if neither side can take them out of it: by its opens, and
      by its closes as far as the buckets they may take from reach. */
  lemma NetLimitHoldsExactly(e: Exposed, limit: int)
    requires Sound(e)
    ensures (forall hits :: CanHits(e, hits) ==> -limit <= AfterHits(e, hits).position.Net() <= limit)
      <==> -limit <= NetFloor(e) && NetCeiling(e) <= limit
  {
    hide Sound, AfterHits, CanHits, Position.Net, LongCeiling, ShortCeiling, StockOf, CeilingOf, BalanceCeilingOf,
      NetCeiling, NetFloor, Stock.Balance;
    forall hits | CanHits(e, hits) ensures NetFloor(e) <= AfterHits(e, hits).position.Net() <= NetCeiling(e) {
      HitsStayUnder(e, hits, Buy);
      HitsStayUnder(e, hits, Sell);
      SidesAreStocks(e, AfterHits(e, hits).position);
    }
    var buys := BoundsAreReached(e, Buy);
    var sells := BoundsAreReached(e, Sell);
    SidesAreStocks(e, AfterHits(e, buys).position);
    SidesAreStocks(e, AfterHits(e, sells).position);
  }

  /** No limit can be breached by what is outstanding. */
  predicate RoomForAll(c: RiskConfig, e: Exposed) {
    && (c.maxLong > 0 ==> LongCeiling(e) <= c.maxLong)
    && (c.maxShort > 0 ==> ShortCeiling(e) <= c.maxShort)
    && (c.maxAbsNet > 0 ==> -c.maxAbsNet <= NetFloor(e) && NetCeiling(e) <= c.maxAbsNet)
  }

  /** All limits hold through all fills of the outstanding orders if and only if there is room for all of them. */
  lemma LimitsHoldExactly(c: RiskConfig, e: Exposed)
    requires Sound(e)
    ensures (forall hits :: CanHits(e, hits) ==>
               Within(c, AfterHits(e, hits).position.Long(), AfterHits(e, hits).position.Short()))
      <==> RoomForAll(c, e)
  {
    hide Sound, CanHits, AfterHits, LongCeiling, ShortCeiling, NetCeiling, NetFloor, Position.Long, Position.Short;
    SideLimitsHoldExactly(e, c.maxLong);
    SideLimitsHoldExactly(e, c.maxShort);
    NetLimitHoldsExactly(e, c.maxAbsNet);
    assert forall hits :: CanHits(e, hits) ==>
      AfterHits(e, hits).position.Net() == AfterHits(e, hits).position.Long() - AfterHits(e, hits).position.Short();
  }

  /** Two orders that open the same side, each accepted at the same position, may together take it over the limit that
      each respects; they cannot exactly if the position leaves room for both. */
  lemma AcceptedTogether(c: RiskConfig, p: Position, s: Situation, a: OrderRequest, b: OrderRequest)
    requires c.enabled && p.NonNegative() && a.offset.Open? && b.offset.Open? && a.side.Buy? && b.side.Buy?
    requires Evaluate(c, s, p, a, true).None? && Evaluate(c, s, p, b, true).None? && c.maxLong > 0
    ensures p.Long() + a.volume <= c.maxLong && p.Long() + b.volume <= c.maxLong
    ensures var e := Exposed(p, [Flight(a, a.volume), Flight(b, b.volume)]);
      (forall hits :: CanHits(e, hits) ==> AfterHits(e, hits).position.Long() <= c.maxLong)
        <==> p.Long() + a.volume + b.volume <= c.maxLong
  {
    hide FillOf, CompatibilityPrice, QuoteRefusal, BasicRefusal, AfterHits, CanHits, Position.Long, Position.NonNegative;
    AcceptedStaysWithin(c, s, p, a, true);
    AcceptedStaysWithin(c, s, p, b, true);
    var e := Exposed(p, [Flight(a, a.volume), Flight(b, b.volume)]);
    var one := [Flight(a, a.volume)];
    assert e.flights[..1] == one && one[..0] == [];
    assert Outstanding(one, Buy, Opens) == a.volume;
    SideLimitsHoldExactly(e, c.maxLong);
  }

  const ONE_LONG := RiskConfig(true, true, false, 0, 0, 1, 0, 0, 0.0, 0, 0.0)

  /** It happens: under a limit of one lot the gate, which looks at the position alone, accepts an open of one lot while
      another is working, and together they breach the limit. */
  lemma TwoInFlightMayBreach(s: Situation, r: OrderRequest, price: real)
    requires s.tradingEnabled && s.quote.None?
    requires r.offset.Open? && r.side.Buy? && r.priceType.Limit? && r.limitPrice > 0.0 && r.volume == 1
    ensures Evaluate(ONE_LONG, s, FLAT, r, true).None?
    ensures var first := FillOf(FLAT, r, price, 1, DEFAULT_COSTS).position;
      var second := FillOf(first, r, price, 1, DEFAULT_COSTS).position;
      Within(ONE_LONG, first.Long(), first.Short()) && !Within(ONE_LONG, second.Long(), second.Short())
  {
    hide Notional, NetOfFees, WeightedAveragePrice;
  }

  // ---- Flatten-only mode ----

  /** Any number of accepted orders, whose fills may come in any order, number and size. */
  datatype Floor = Floor(positions: Positions, accepted: seq<OrderRequest>)

  datatype FloorStep =
    | Ask(request: OrderRequest, situation: Situation)
    | Report(order: nat, price: real, lots: int)
    | Overnight

  function Turn(c: RiskConfig, f: Floor, step: FloorStep): Floor {
    match step
    case Ask(r, s) =>
      if Evaluate(c, s, HeldAt(f.positions, r.instrument), r, true).Some? then f
      else f.(accepted := f.accepted + [r])
    case Report(n, price, lots) =>
      if n >= |f.accepted| then f
      else
        var r := f.accepted[n];
        f.(positions := f.positions[
             r.instrument := FillOf(HeldAt(f.positions, r.instrument), r, price, lots, DEFAULT_COSTS).position])
    case Overnight => f.(positions := RollPositions(f.positions))
  }

  function Turns(c: RiskConfig, f: Floor, steps: seq<FloorStep>): Floor
    decreases |steps|
  {
    if steps == [] then f else Turns(c, Turn(c, f, steps[0]), steps[1..])
  }

  predicate OnlyCloses(f: Floor) {
    forall r :: r in f.accepted ==> !r.offset.Open?
  }

  predicate NoMoreThan(now: Position, was: Position) {
    now.NonNegative() && now.Long() <= was.Long() && now.Short() <= was.Short()
  }

  lemma TurnNeverAdds(c: RiskConfig, f: Floor, step: FloorStep, i: string)
    requires c.enabled && c.flattenOnly && OnlyCloses(f) && HeldAt(f.positions, i).NonNegative()
    ensures OnlyCloses(Turn(c, f, step))
    ensures NoMoreThan(HeldAt(Turn(c, f, step).positions, i), HeldAt(f.positions, i))
  {
    hide FillOf, Roll, BasicRefusal, QuoteRefusal, ExposureRefusal, CloseRequestIsValid;
    match step {
      case Ask(_, _) =>
      case Report(n, price, lots) =>
        if n < |f.accepted| && f.accepted[n].instrument == i {
          if lots > 0 {
            FillMovesPartOfTheWay(HeldAt(f.positions, i), f.accepted[n], price, lots);
          } else {
            NoLotsNoChange(HeldAt(f.positions, i), f.accepted[n], price, lots);
          }
        }
      case Overnight =>
        RollKeepsExposure(HeldAt(f.positions, i));
    }
  }

  lemma NoLotsNoChange(p: Position, r: OrderRequest, price: real, lots: int)
    requires lots <= 0
    ensures FillOf(p, r, price, lots, DEFAULT_COSTS).position == p
  {
  }

  /** In flatten-only mode no interleaving of decisions, fills of accepted orders and day rolls ever adds to the long or the
      short lots of any instrument, even when the orders together exceed what there is to close. */
  lemma {:induction false} FlattenOnlyNeverAdds(c: RiskConfig, f: Floor, steps: seq<FloorStep>, i: string)
    requires c.enabled && c.flattenOnly && OnlyCloses(f) && HeldAt(f.positions, i).NonNegative()
    ensures NoMoreThan(HeldAt(Turns(c, f, steps).positions, i), HeldAt(f.positions, i))
    decreases |steps|
  {
    hide Turn, OnlyCloses;
    if steps != [] {
      TurnNeverAdds(c, f, steps[0], i);
      FlattenOnlyNeverAdds(c, Turn(c, f, steps[0]), steps[1..], i);
    }
  }
}
